/**
 What concurrent refreshes of one token do: a refresh reads the row that carries the token, stores
 a new pair, and only then rotates the row away, in separate store calls.
 */
module RefreshRace {
  import opened Wrappers
  import opened Dict
  import opened IdentitySpec
  import IdentityRuns
  import opened Names
  import opened OneUse

  /**
   Call i is about to store a pair for a row it read before the rotation of a call that has
   already stored one: the row is gone by now, or is still to be rotated away.
   */
  ghost predicate Overtaken(su: Setup, s: State, i: nat) {
    && su.calls(i).RefreshCall? && StageOf(s, i).Read?
    && (StageOf(s, i).found.hash !in s.tokens.data || InHand(s.stages, StageOf(s, i).found.hash))
  }

  /** Some call has stored a pair for this row and not yet rotated the row away. */
  ghost predicate InHand(stages: map<nat, Stage>, o: string) {
    exists j :: j in stages && stages[j].Stored? && stages[j].before.hash == o
  }

  ghost predicate OvertakenIn(su: Setup, s: State, schedule: seq<nat>) {
    exists m :: 0 <= m < |schedule| && Overtaken(su, Exec(su, s, schedule[..m]), schedule[m])
  }

  // ----- the invariant -----

  ghost predicate StageOk(w: World, n: nat, tokens: map<string, AccessToken>, renewed: seq<string>, stage: Stage) {
    && (stage.Scanning? ==> forall h :: h in stage.todo ==> Minted(w, n, h))
    && (stage.Read? ==>
          Minted(w, n, stage.found.hash) && (stage.found.hash in tokens || stage.found.hash in renewed))
    && (stage.Stored? ==>
          && Minted(w, n, stage.before.hash) && Minted(w, n, stage.after.hash)
          && stage.before.hash != stage.after.hash && stage.before.hash in renewed
          && stage.after.hash in tokens && tokens[stage.after.hash] == stage.after && stage.after.hash !in renewed)
  }

  ghost predicate StagesOk(w: World, n: nat, tokens: map<string, AccessToken>, renewed: seq<string>,
                           stages: map<nat, Stage>) {
    forall i :: i in stages ==> StageOk(w, n, tokens, renewed, stages[i])
  }

  ghost predicate RenewedOk(w: World, n: nat, renewed: seq<string>) {
    forall o :: o in renewed ==> Minted(w, n, o)
  }

  /** Call i may come to a row, or has: its scan would stop there, it read it, or it stored for or as it. */
  predicate Knows(su: Setup, i: nat, stage: Stage, row: AccessToken) {
    || (stage.Scanning? && row.hash in stage.todo && su.calls(i).RefreshCall?
        && CarriesRefresh(row, su.w.hash(su.calls(i).refreshToken)))
    || (stage.Read? && stage.found.hash == row.hash)
    || (stage.Stored? && (stage.before.hash == row.hash || stage.after.hash == row.hash))
  }

  /** A pair not yet returned is known to nobody else. */
  ghost predicate Unknown(su: Setup, stages: map<nat, Stage>) {
    forall i, j | i in stages && j in stages && i != j && stages[j].Stored? :: !Knows(su, i, stages[i], stages[j].after)
  }

  ghost predicate TokenInv(su: Setup, s: State) {
    && TokensNamed(su.w, s.names, s.tokens) && RenewedOk(su.w, s.names, s.renewed)
    && StagesOk(su.w, s.names, s.tokens.data, s.renewed, s.stages) && Unknown(su, s.stages)
  }

  /** No row has been renewed twice, and a renewed row still stored is in the hands of the call that renewed it. */
  ghost predicate Once(tokens: map<string, AccessToken>, stages: map<nat, Stage>, renewed: seq<string>) {
    NoDuplicates(renewed) && forall o :: o in renewed && o in tokens ==> InHand(stages, o)
  }

  // ----- steps that leave refreshes alone -----

  lemma StageNames(w: World, n: nat, m: nat, tokens: map<string, AccessToken>, renewed: seq<string>, stage: Stage)
    requires StageOk(w, n, tokens, renewed, stage) && n <= m
    ensures StageOk(w, m, tokens, renewed, stage)
  {
    forall h: string ensures Minted(w, n, h) ==> Minted(w, m, h) { MintedGrows(w, n, m, h); }
  }

  lemma TokenNames(w: World, n: nat, m: nat, tokens: Dict<string, AccessToken>, renewed: seq<string>)
    requires TokensNamed(w, n, tokens) && RenewedOk(w, n, renewed) && n <= m
    ensures TokensNamed(w, m, tokens) && RenewedOk(w, m, renewed)
  {
    forall h: string ensures Minted(w, n, h) ==> Minted(w, m, h) { MintedGrows(w, n, m, h); }
  }

  predicate Plain(stage: Stage) {
    !stage.Scanning? && !stage.Read? && !stage.Stored?
  }

  lemma PlainKnowsNothing(su: Setup, i: nat, stage: Stage)
    requires Plain(stage)
    ensures forall row :: !Knows(su, i, stage, row)
  {
  }

  lemma UnknownMoves(su: Setup, stages: map<nat, Stage>, i: nat, stage: Stage)
    requires Unknown(su, stages) && !stage.Stored?
    requires forall j :: j in stages && j != i && stages[j].Stored? ==> !Knows(su, i, stage, stages[j].after)
    ensures Unknown(su, stages[i := stage])
  {
    hide Knows;
  }

  lemma StagesMove(w: World, n: nat, tokens: map<string, AccessToken>, renewed: seq<string>, stages: map<nat, Stage>,
                   i: nat, stage: Stage)
    requires StagesOk(w, n, tokens, renewed, stages) && StageOk(w, n, tokens, renewed, stage)
    ensures StagesOk(w, n, tokens, renewed, stages[i := stage])
  {
    hide StageOk;
  }

  lemma HandsMove(tokens: map<string, AccessToken>, stages: map<nat, Stage>, renewed: seq<string>, i: nat, stage: Stage)
    requires Once(tokens, stages, renewed) && (i in stages ==> !stages[i].Stored?)
    ensures Once(tokens, stages[i := stage], renewed)
  {
    var stages' := stages[i := stage];
    forall o | o in renewed && o in tokens ensures InHand(stages', o) {
      var j :| j in stages && stages[j].Stored? && stages[j].before.hash == o;
      assert j in stages' && stages'[j] == stages[j];
    }
  }

  /** A step that touches no token row. */
  ghost predicate Beside(s: State, s': State, i: nat, stage: Stage) {
    && s'.tokens == s.tokens && s'.made == s.made && s.names <= s'.names
    && s'.renewed == s.renewed && s'.accepted == s.accepted
    && s'.stages == s.stages[i := stage] && (i in s.stages ==> !s.stages[i].Stored?)
  }

  lemma BesideKeeps(su: Setup, s: State, s': State, i: nat, stage: Stage)
    requires TokenInv(su, s) && Beside(s, s', i, stage) && !stage.Stored?
    requires StageOk(su.w, s.names, s.tokens.data, s.renewed, stage)
    requires forall j :: j in s.stages && j != i && s.stages[j].Stored? ==> !Knows(su, i, stage, s.stages[j].after)
    ensures TokenInv(su, s')
    ensures Once(s.tokens.data, s.stages, s.renewed) ==> Once(s'.tokens.data, s'.stages, s'.renewed)
  {
    hide TokensNamed, RenewedOk, StagesOk, StageOk, Unknown, Knows, Once;
    StagesMove(su.w, s.names, s.tokens.data, s.renewed, s.stages, i, stage);
    StagesNames(su.w, s.names, s'.names, s.tokens.data, s.renewed, s'.stages);
    TokenNames(su.w, s.names, s'.names, s.tokens, s.renewed);
    UnknownMoves(su, s.stages, i, stage);
    if Once(s.tokens.data, s.stages, s.renewed) { HandsMove(s.tokens.data, s.stages, s.renewed, i, stage); }
  }

  lemma StagesNames(w: World, n: nat, m: nat, tokens: map<string, AccessToken>, renewed: seq<string>,
                    stages: map<nat, Stage>)
    requires StagesOk(w, n, tokens, renewed, stages) && n <= m
    ensures StagesOk(w, m, tokens, renewed, stages)
  {
    hide StageOk;
    forall i | i in stages ensures StageOk(w, m, tokens, renewed, stages[i])
    {
      StageNames(w, n, m, tokens, renewed, stages[i]);
    }
  }

  lemma PlainKeeps(su: Setup, s: State, s': State, i: nat, stage: Stage)
    requires TokenInv(su, s) && Beside(s, s', i, stage) && Plain(stage)
    ensures TokenInv(su, s')
    ensures Once(s.tokens.data, s.stages, s.renewed) ==> Once(s'.tokens.data, s'.stages, s'.renewed)
  {
    hide TokenInv, Beside, Once;
    BesideKeeps(su, s, s', i, stage);
  }

  // ----- a new row -----

  ghost predicate NewTo(w: World, n: nat, token: AccessToken) {
    !Minted(w, n, token.hash) && Minted(w, n + 2, token.hash)
  }

  lemma TokenIsNew(w: World, n: nat, grant: Grant, now: real, accessTtl: real, refreshTtl: real)
    requires Sound(w)
    ensures NewTo(w, n, NewToken(w, n, grant, now, accessTtl, refreshTtl))
  {
    NewIsNew(w, n, n);
    MintedGrows(w, n + 1, n + 2, w.hash(w.newName(n)));
  }

  lemma AddToken(w: World, n: nat, tokens: Dict<string, AccessToken>, token: AccessToken)
    requires TokensNamed(w, n, tokens) && NewTo(w, n, token)
    ensures token.hash !in tokens.data && TokensNamed(w, n + 2, Put(tokens, token.hash, token))
    ensures Put(tokens, token.hash, token).data == tokens.data[token.hash := token]
  {
    PutValid(tokens, token.hash, token);
    forall h: string ensures Minted(w, n, h) ==> Minted(w, n + 2, h) { MintedGrows(w, n, n + 2, h); }
  }

  /** The calls under way see a new row as nothing to do with them. */
  lemma StagesSeeNew(w: World, n: nat, tokens: map<string, AccessToken>, renewed: seq<string>,
                     stages: map<nat, Stage>, token: AccessToken)
    requires StagesOk(w, n, tokens, renewed, stages) && NewTo(w, n, token)
    ensures StagesOk(w, n + 2, tokens[token.hash := token], renewed, stages)
  {
    forall i | i in stages ensures StageOk(w, n + 2, tokens[token.hash := token], renewed, stages[i]) {
      StageNames(w, n, n + 2, tokens, renewed, stages[i]);
      assert StageOk(w, n, tokens, renewed, stages[i]);
    }
  }

  lemma OnceSeesNew(w: World, n: nat, tokens: map<string, AccessToken>, stages: map<nat, Stage>, renewed: seq<string>,
                    token: AccessToken)
    requires Once(tokens, stages, renewed) && RenewedOk(w, n, renewed) && NewTo(w, n, token)
    ensures Once(tokens[token.hash := token], stages, renewed)
  {
    hide Minted, InHand;
  }

  lemma PairStores(s: State, i: nat, row: AuthCode, token: AccessToken)
    requires Valid(s.tokens)
    ensures var s' := StorePair(s, i, row, token);
            && s'.names == s.names + 2 && s'.tokens == Put(s.tokens, token.hash, token)
            && s'.tokens.data == s.tokens.data[token.hash := token]
            && s'.renewed == s.renewed && s'.stages == s.stages[i := Redeemed(row.hash)]
  {
  }

  lemma PairKeeps(su: Setup, s: State, i: nat, row: AuthCode, token: AccessToken)
    requires TokenInv(su, s) && NewTo(su.w, s.names, token) && StageOf(s, i) == Holding(row)
    ensures TokenInv(su, StorePair(s, i, row, token))
  {
    assert Valid(s.tokens);
    hide TokensNamed, RenewedOk, StagesOk, Unknown, NewTo, Minted, Put, Knows, StorePair;
    var w, n := su.w, s.names;
    PairStores(s, i, row, token);
    AddToken(w, n, s.tokens, token);
    TokenNames(w, n, n + 2, s.tokens, s.renewed);
    StagesSeeNew(w, n, s.tokens.data, s.renewed, s.stages, token);
    StagesMove(w, n + 2, s.tokens.data[token.hash := token], s.renewed, s.stages, i, Redeemed(row.hash));
    PlainKnowsNothing(su, i, Redeemed(row.hash));
    UnknownMoves(su, s.stages, i, Redeemed(row.hash));
  }

  lemma PairIsOnce(su: Setup, s: State, i: nat, row: AuthCode, token: AccessToken)
    requires TokenInv(su, s) && NewTo(su.w, s.names, token) && StageOf(s, i) == Holding(row)
    requires Once(s.tokens.data, s.stages, s.renewed)
    ensures var s' := StorePair(s, i, row, token); Once(s'.tokens.data, s'.stages, s'.renewed)
  {
    assert Valid(s.tokens);
    hide TokensNamed, StagesOk, Unknown, Once, NewTo, Minted, Put, StorePair;
    PairStores(s, i, row, token);
    OnceSeesNew(su.w, s.names, s.tokens.data, s.stages, s.renewed, token);
    HandsMove(s.tokens.data[token.hash := token], s.stages, s.renewed, i, Redeemed(row.hash));
  }

  // ----- the three steps of a refresh -----

  lemma BeginKeeps(su: Setup, s: State, i: nat)
    requires TokenInv(su, s) && su.calls(i).RefreshCall? && StageOf(s, i).Begun?
    requires !NotYetReturned(s, su.w.hash(su.calls(i).refreshToken))
    ensures TokenInv(su, At(s, i, Scanning(s.tokens.order)))
    ensures Once(s.tokens.data, s.stages, s.renewed) ==>
              Once(s.tokens.data, s.stages[i := Scanning(s.tokens.order)], s.renewed)
  {
    BesideKeeps(su, s, At(s, i, Scanning(s.tokens.order)), i, Scanning(s.tokens.order));
  }

  lemma ScanReads(su: Setup, s: State, i: nat, todo: seq<string>)
    requires TokenInv(su, s) && su.calls(i).RefreshCall? && StageOf(s, i) == Scanning(todo) && todo != []
    requires todo[0] in s.tokens.data && CarriesRefresh(s.tokens.data[todo[0]], su.w.hash(su.calls(i).refreshToken))
    ensures TokenInv(su, At(s, i, Read(s.tokens.data[todo[0]])))
    ensures Once(s.tokens.data, s.stages, s.renewed) ==>
              Once(s.tokens.data, s.stages[i := Read(s.tokens.data[todo[0]])], s.renewed)
  {
    var row := s.tokens.data[todo[0]];
    forall j | j in s.stages && j != i && s.stages[j].Stored? ensures !Knows(su, i, Read(row), s.stages[j].after) {
      assert StageOk(su.w, s.names, s.tokens.data, s.renewed, s.stages[j]);
      assert !Knows(su, i, s.stages[i], s.stages[j].after);
    }
    BesideKeeps(su, s, At(s, i, Read(row)), i, Read(row));
  }

  lemma ScanAdvances(su: Setup, s: State, i: nat, todo: seq<string>)
    requires TokenInv(su, s) && StageOf(s, i) == Scanning(todo) && todo != []
    ensures TokenInv(su, At(s, i, Scanning(todo[1..])))
    ensures Once(s.tokens.data, s.stages, s.renewed) ==>
              Once(s.tokens.data, s.stages[i := Scanning(todo[1..])], s.renewed)
  {
    assert StageOk(su.w, s.names, s.tokens.data, s.renewed, s.stages[i]);
    forall j | j in s.stages && j != i && s.stages[j].Stored?
      ensures !Knows(su, i, Scanning(todo[1..]), s.stages[j].after)
    {
      assert !Knows(su, i, s.stages[i], s.stages[j].after);
    }
    BesideKeeps(su, s, At(s, i, Scanning(todo[1..])), i, Scanning(todo[1..]));
  }

  lemma ScanKeeps(su: Setup, s: State, i: nat, todo: seq<string>, now: real)
    requires TokenInv(su, s) && su.calls(i).RefreshCall? && StageOf(s, i) == Scanning(todo)
    ensures var s' := ScanStep(s, i, su.w.hash(su.calls(i).refreshToken), todo, now);
            TokenInv(su, s') && (Once(s.tokens.data, s.stages, s.renewed) ==>
              Once(s'.tokens.data, s'.stages, s'.renewed))
  {
    AtTokens(s, i);
    AtStages(s, i);
    hide TokenInv, Once, CarriesRefresh, At;
    if todo == [] {
      AtKeeps(su, s, i, Failed(UnknownRefresh));
    } else if todo[0] in s.tokens.data && CarriesRefresh(s.tokens.data[todo[0]], su.w.hash(su.calls(i).refreshToken)) {
      AtKeeps(su, s, i, Failed(RefreshExpired));
      ScanReads(su, s, i, todo);
    } else {
      ScanAdvances(su, s, i, todo);
    }
  }

  lemma OthersSeePut(w: World, n: nat, tokens: map<string, AccessToken>, renewed: seq<string>, stage: Stage,
                     token: AccessToken, o: string)
    requires StageOk(w, n, tokens, renewed, stage) && NewTo(w, n, token)
    requires stage.Stored? ==> stage.after.hash != o
    ensures StageOk(w, n + 2, tokens[token.hash := token], renewed + [o], stage)
  {
    StageNames(w, n, n + 2, tokens, renewed, stage);
  }

  /** A pair just stored is known to nobody, and storing it teaches its call nothing of others. */
  lemma UnknownPut(su: Setup, n: nat, tokens: map<string, AccessToken>, renewed: seq<string>, stages: map<nat, Stage>,
                   i: nat, row: AccessToken, token: AccessToken)
    requires Unknown(su, stages) && StagesOk(su.w, n, tokens, renewed, stages) && NewTo(su.w, n, token)
    requires i in stages && stages[i] == Read(row)
    ensures Unknown(su, stages[i := Stored(row, token)])
  {
    var stages' := stages[i := Stored(row, token)];
    forall k, j | k in stages' && j in stages' && k != j && stages'[j].Stored?
      ensures !Knows(su, k, stages'[k], stages'[j].after)
    {
      assert k != i ==> StageOk(su.w, n, tokens, renewed, stages[k]);
      assert j != i ==> StageOk(su.w, n, tokens, renewed, stages[j]);
      assert j != i ==> !Knows(su, k, stages[k], stages[j].after);
    }
  }

  lemma StagesPut(su: Setup, n: nat, tokens: map<string, AccessToken>, renewed: seq<string>, stages: map<nat, Stage>,
                  i: nat, row: AccessToken, token: AccessToken)
    requires Unknown(su, stages) && StagesOk(su.w, n, tokens, renewed, stages) && NewTo(su.w, n, token)
    requires RenewedOk(su.w, n, renewed) && i in stages && stages[i] == Read(row)
    ensures StagesOk(su.w, n + 2, tokens[token.hash := token], renewed + [row.hash], stages[i := Stored(row, token)])
    ensures Minted(su.w, n, row.hash)
  {
    var data', renewed', stages' := tokens[token.hash := token], renewed + [row.hash], stages[i := Stored(row, token)];
    assert StageOk(su.w, n, tokens, renewed, stages[i]);
    MintedGrows(su.w, n, n + 2, row.hash);
    forall j | j in stages' ensures StageOk(su.w, n + 2, data', renewed', stages'[j]) {
      if j != i {
        assert stages[j].Stored? ==> !Knows(su, i, stages[i], stages[j].after);
        OthersSeePut(su.w, n, tokens, renewed, stages[j], token, row.hash);
      }
    }
  }

  lemma PutKeeps(su: Setup, s: State, i: nat, presented: string, row: AccessToken, token: AccessToken)
    requires TokenInv(su, s) && NewTo(su.w, s.names, token) && StageOf(s, i) == Read(row)
    ensures TokenInv(su, PutStep(s, i, presented, row, token))
  {
    hide TokensNamed, StagesOk, Unknown, Minted, NewTo;
    AddToken(su.w, s.names, s.tokens, token);
    TokenNames(su.w, s.names, s.names + 2, s.tokens, s.renewed);
    StagesPut(su, s.names, s.tokens.data, s.renewed, s.stages, i, row, token);
    MintedGrows(su.w, s.names, s.names + 2, row.hash);
    UnknownPut(su, s.names, s.tokens.data, s.renewed, s.stages, i, row, token);
  }

  /** Not overtaken, it renews a row nobody has renewed. */
  lemma PutIsOnce(su: Setup, s: State, i: nat, row: AccessToken, token: AccessToken)
    requires TokenInv(su, s) && NewTo(su.w, s.names, token) && StageOf(s, i) == Read(row)
    requires Once(s.tokens.data, s.stages, s.renewed) && row.hash in s.tokens.data && !InHand(s.stages, row.hash)
    ensures Once(s.tokens.data[token.hash := token], s.stages[i := Stored(row, token)], s.renewed + [row.hash])
  {
    hide TokensNamed, StagesOk, Unknown, Minted;
    var stages', renewed' := s.stages[i := Stored(row, token)], s.renewed + [row.hash];
    HandsMove(s.tokens.data, s.stages, s.renewed, i, Stored(row, token));
    OnceSeesNew(su.w, s.names, s.tokens.data, stages', s.renewed, token);
    assert stages'[i].before.hash == row.hash;
    assert InHand(stages', row.hash);
    hide InHand;
  }

  lemma ReadStep(su: Setup, s: State, i: nat)
    requires su.calls(i).RefreshCall? && StageOf(s, i).Read?
    ensures Step(su, s, i).renewed == s.renewed + [StageOf(s, i).found.hash]
  {
    hide NewToken, Put;
  }

  /** Overtaken, it renews a row already renewed. */
  lemma OvertakenRepeats(su: Setup, s: State, i: nat)
    requires TokenInv(su, s) && Overtaken(su, s, i)
    ensures !NoDuplicates(Step(su, s, i).renewed)
  {
    ReadStep(su, s, i);
    hide Step, Minted, TokensNamed, RenewedOk, Unknown;
    var row := StageOf(s, i).found;
    assert StageOk(su.w, s.names, s.tokens.data, s.renewed, s.stages[i]);
    if InHand(s.stages, row.hash) {
      var j :| j in s.stages && s.stages[j].Stored? && s.stages[j].before.hash == row.hash;
      assert StageOk(su.w, s.names, s.tokens.data, s.renewed, s.stages[j]);
    }
    var k :| 0 <= k < |s.renewed| && s.renewed[k] == row.hash;
    var renewed' := Step(su, s, i).renewed;
    assert renewed'[k] == renewed'[|s.renewed|];
  }

  lemma RotatedData(tokens: Dict<string, AccessToken>, row: AccessToken, token: AccessToken)
    requires Valid(tokens) && token.hash in tokens.data && tokens.data[token.hash] == token && row.hash != token.hash
    ensures Valid(Put(Remove(tokens, row.hash), token.hash, token))
    ensures Put(Remove(tokens, row.hash), token.hash, token).data == tokens.data - {row.hash}
  {
    RemoveValid(tokens, row.hash);
    PutValid(Remove(tokens, row.hash), token.hash, token);
  }

  lemma StagesRotate(su: Setup, n: nat, tokens: map<string, AccessToken>, renewed: seq<string>, stages: map<nat, Stage>,
                     i: nat, row: AccessToken, token: AccessToken)
    requires Unknown(su, stages) && StagesOk(su.w, n, tokens, renewed, stages)
    requires i in stages && stages[i] == Stored(row, token)
    ensures StagesOk(su.w, n, tokens - {row.hash}, renewed, stages[i := Renewed(row.hash)])
    ensures StageOk(su.w, n, tokens, renewed, stages[i])
  {
    hide Minted;
    var data', stages' := tokens - {row.hash}, stages[i := Renewed(row.hash)];
    assert StageOk(su.w, n, tokens, renewed, stages[i]);
    forall j | j in stages' ensures StageOk(su.w, n, data', renewed, stages'[j]) {
      if j != i {
        assert StageOk(su.w, n, tokens, renewed, stages[j]);
        assert stages[j].Stored? ==> !Knows(su, i, stages[i], stages[j].after);
      }
    }
  }

  lemma OnceRotate(tokens: map<string, AccessToken>, stages: map<nat, Stage>, renewed: seq<string>,
                   i: nat, row: AccessToken, token: AccessToken)
    requires Once(tokens, stages, renewed) && i in stages && stages[i] == Stored(row, token)
    ensures Once(tokens - {row.hash}, stages[i := Renewed(row.hash)], renewed)
  {
    var stages' := stages[i := Renewed(row.hash)];
    forall o | o in renewed && o in tokens - {row.hash} ensures InHand(stages', o) {
      var j :| j in stages && stages[j].Stored? && stages[j].before.hash == o;
      assert j in stages' && stages'[j] == stages[j];
    }
  }

  lemma FewerNamed(w: World, n: nat, tokens: Dict<string, AccessToken>, tokens': Dict<string, AccessToken>, o: string)
    requires TokensNamed(w, n, tokens) && Valid(tokens') && tokens'.data == tokens.data - {o}
    ensures TokensNamed(w, n, tokens')
  {
    hide Minted, Valid;
  }

  lemma RotateKeeps(su: Setup, s: State, i: nat, row: AccessToken, token: AccessToken)
    requires TokenInv(su, s) && StageOf(s, i) == Stored(row, token)
    ensures TokenInv(su, RotateStep(s, i, row, token))
    ensures Once(s.tokens.data, s.stages, s.renewed) ==>
              var s' := RotateStep(s, i, row, token); Once(s'.tokens.data, s'.stages, s'.renewed)
  {
    hide RenewedOk, StagesOk, Unknown, Minted, Valid, Knows, Once, Put, Remove;
    var tokens' := Put(Remove(s.tokens, row.hash), token.hash, token);
    StagesRotate(su, s.names, s.tokens.data, s.renewed, s.stages, i, row, token);
    RotatedData(s.tokens, row, token);
    hide StageOk;
    PlainKnowsNothing(su, i, Renewed(row.hash));
    FewerNamed(su.w, s.names, s.tokens, tokens', row.hash);
    UnknownMoves(su, s.stages, i, Renewed(row.hash));
    if Once(s.tokens.data, s.stages, s.renewed) { OnceRotate(s.tokens.data, s.stages, s.renewed, i, row, token); }
  }

  // ----- every step -----

  lemma RefreshKeeps(su: Setup, s: State, i: nat, call: Call)
    requires Sound(su.w) && TokenInv(su, s) && call == su.calls(i) && call.RefreshCall?
    ensures var s' := RefreshStep(su, s, i, call);
            && TokenInv(su, s')
            && (Once(s.tokens.data, s.stages, s.renewed) && !Overtaken(su, s, i) ==>
                 Once(s'.tokens.data, s'.stages, s'.renewed))
  {
    hide Sound, TokenInv, NotYetReturned, NewToken, ScanStep, Once, RotateStep, InHand;
    match StageOf(s, i)
    case Begun => if !NotYetReturned(s, su.w.hash(call.refreshToken)) { BeginKeeps(su, s, i); }
    case Scanning(todo) => ScanKeeps(su, s, i, todo, call.now);
    case Read(row) =>
      var token := NewToken(su.w, s.names, row.grant, call.now, call.accessTtl, call.refreshTtl);
      TokenIsNew(su.w, s.names, row.grant, call.now, call.accessTtl, call.refreshTtl);
      PutKeeps(su, s, i, call.refreshToken, row, token);
      if Once(s.tokens.data, s.stages, s.renewed) && !Overtaken(su, s, i) { PutIsOnce(su, s, i, row, token); }
    case Stored(row, token) => RotateKeeps(su, s, i, row, token);
    case _ =>
  }

  lemma AtKeeps(su: Setup, s: State, i: nat, stage: Stage)
    requires TokenInv(su, s) && Plain(stage) && !StageOf(s, i).Stored?
    ensures TokenInv(su, At(s, i, stage))
    ensures Once(s.tokens.data, s.stages, s.renewed) ==> Once(s.tokens.data, At(s, i, stage).stages, s.renewed)
  {
    hide TokenInv, Once;
    PlainKeeps(su, s, At(s, i, stage), i, stage);
  }

  lemma UseKeeps(su: Setup, s: State, i: nat, row: AuthCode, at: real)
    requires TokenInv(su, s) && StageOf(s, i).Passed? && row.hash in s.codes
    ensures var s' := UseCode(s, i, row, at);
            TokenInv(su, s') && (Once(s.tokens.data, s.stages, s.renewed) ==>
              Once(s'.tokens.data, s'.stages, s'.renewed))
  {
    hide TokenInv, Once;
    PlainKeeps(su, s, UseCode(s, i, row, at), i, Holding(row));
  }

  lemma RedeemKeeps(su: Setup, s: State, i: nat, call: Call)
    requires Sound(su.w) && TokenInv(su, s) && call == su.calls(i) && call.RedeemCall?
    ensures var s' := RedeemStep(su, s, i, call);
            && TokenInv(su, s')
            && (Once(s.tokens.data, s.stages, s.renewed) ==> Once(s'.tokens.data, s'.stages, s'.renewed))
  {
    AtTokens(s, i);
    hide Sound, TokenInv, NewToken, CodeProblem, Once, StorePair, UseCode, At;
    match StageOf(s, i)
    case Begun =>
      var h := su.w.hash(call.code);
      if h !in s.codes { AtKeeps(su, s, i, Failed(UnknownCode)); }
      else {
        var problem := CodeProblem(su.w, s.codes[h], call.verifier, call.audience, call.now);
        AtKeeps(su, s, i, if problem.Some? then Failed(problem.value) else Passed(s.codes[h]));
      }
    case Passed(row) =>
      if row.hash !in s.codes || s.codes[row.hash].consumedAt.Some? { AtKeeps(su, s, i, Failed(CodeUsed)); }
      else { UseKeeps(su, s, i, row, call.now); }
    case Holding(row) =>
      TokenIsNew(su.w, s.names, row.grant, call.now, call.accessTtl, call.refreshTtl);
      var token := NewToken(su.w, s.names, row.grant, call.now, call.accessTtl, call.refreshTtl);
      PairKeeps(su, s, i, row, token);
      if Once(s.tokens.data, s.stages, s.renewed) { PairIsOnce(su, s, i, row, token); }
    case _ =>
  }

  lemma AtTokens(s: State, i: nat)
    ensures forall stage :: At(s, i, stage).tokens == s.tokens && At(s, i, stage).renewed == s.renewed
  {
  }

  lemma AtIsBeside(s: State, i: nat, stage: Stage)
    requires Plain(stage) && !StageOf(s, i).Stored?
    ensures Besides(s, At(s, i, stage), i)
  {
  }

  ghost predicate Besides(s: State, s': State, i: nat) {
    Beside(s, s', i, StageOf(s', i)) && Plain(StageOf(s', i))
  }

  lemma TxnIsBeside(s: State, i: nat, txn: Txn, at: real)
    requires txn.hash in s.txns && !StageOf(s, i).Stored?
    ensures Besides(s, UseTxn(s, i, txn, at), i)
  {
  }

  lemma UserIsBeside(s: State, i: nat, txn: Txn, k: UserKey, pid: string)
    requires !StageOf(s, i).Stored?
    ensures k in s.links ==> Besides(s, FindUser(s, i, txn, k), i)
    ensures Besides(s, PutLink(s, i, txn, k, pid), i)
  {
  }

  lemma NewUserIsBeside(su: Setup, s: State, i: nat, txn: Txn, user: string, pid: string)
    requires !StageOf(s, i).Stored?
    ensures Besides(s, PutPrincipal(s, i, txn, user, pid), i)
    ensures Besides(s, PutMembership(su, s, i, txn, user, pid), i)
  {
  }

  lemma CompleteIsBeside(su: Setup, s: State, i: nat, call: Call)
    requires call.CompleteCall?
    ensures var s' := CompleteStep(su, s, i, call); s' == s || Besides(s, s', i)
  {
    hide Besides, At, Verify, CodeStep, UseTxn, FindUser, PutPrincipal, PutMembership, PutLink;
    match StageOf(s, i)
    case Begun =>
      var h := su.w.hash(call.txnId);
      AtIsBeside(s, i, if h !in s.txns then Failed(UnknownTxn)
                       else if call.now >= s.txns[h].expiresAt then Failed(TxnExpired) else TxnPassed(s.txns[h]));
    case TxnPassed(txn) =>
      if txn.hash !in s.txns || s.txns[txn.hash].consumedAt.Some? { AtIsBeside(s, i, Failed(TxnUsed)); }
      else { TxnIsBeside(s, i, txn, call.now); }
    case TxnHolding(txn) =>
      VerifyIsPlain(su, txn, call);
      AtIsBeside(s, i, Verify(su, txn, call));
    case Verified(txn, user) =>
      UserIsBeside(s, i, txn, (txn.islandId, user), "");
      AtIsBeside(s, i, Naming(txn, user));
    case Naming(txn, user) => NewUserIsBeside(su, s, i, txn, user, su.w.newName(s.names));
    case Joining(txn, user, pid) => NewUserIsBeside(su, s, i, txn, user, pid);
    case Linking(txn, user, pid) => UserIsBeside(s, i, txn, (txn.islandId, user), pid);
    case Linked(txn, pid) => CodeIsBeside(su, s, i, txn, pid, call.now);
    case _ =>
  }

  lemma StoreIsBeside(s: State, i: nat, txn: Txn, code: AuthCode)
    requires !StageOf(s, i).Stored?
    ensures Besides(s, StoreCode(s, i, txn, code), i)
  {
  }

  lemma CodeIsBeside(su: Setup, s: State, i: nat, txn: Txn, pid: string, now: real)
    requires !StageOf(s, i).Stored?
    ensures Besides(s, CodeStep(su, s, i, txn, pid, now), i)
  {
    hide Besides, At, StoreCode, LoginCode;
    if txn.clientId !in su.clients { AtIsBeside(s, i, Failed(UnknownClient)); }
    else if txn.redirectUri !in su.clients[txn.clientId].redirectUris {
      AtIsBeside(s, i, Failed(UnregisteredRedirect));
    }
    else { StoreIsBeside(s, i, txn, LoginCode(su, s.names, txn, pid, now)); }
  }

  lemma VerifyIsPlain(su: Setup, txn: Txn, call: Call)
    requires call.CompleteCall?
    ensures Plain(Verify(su, txn, call))
  {
  }

  lemma StepKeeps(su: Setup, s: State, i: nat)
    requires Sound(su.w) && TokenInv(su, s)
    ensures var s' := Step(su, s, i);
            && TokenInv(su, s')
            && (Once(s.tokens.data, s.stages, s.renewed) && !Overtaken(su, s, i) ==>
                 Once(s'.tokens.data, s'.stages, s'.renewed))
  {
    hide Sound, TokenInv, Once, RedeemStep, RefreshStep, CompleteStep, Overtaken, Beside;
    var call := su.calls(i);
    match call
    case RedeemCall(_, _, _, _, _, _) => RedeemKeeps(su, s, i, call);
    case RefreshCall(_, _, _, _) => RefreshKeeps(su, s, i, call);
    case CompleteCall(_, _, _, _) =>
      var s' := CompleteStep(su, s, i, call);
      CompleteIsBeside(su, s, i, call);
      if s' != s { PlainKeeps(su, s, s', i, StageOf(s', i)); }
  }

  lemma {:induction false} ExecKeeps(su: Setup, s: State, schedule: seq<nat>)
    requires Sound(su.w) && Initial(su.w, s)
    ensures var t := Exec(su, s, schedule);
            && TokenInv(su, t)
            && (!OvertakenIn(su, s, schedule) ==> Once(t.tokens.data, t.stages, t.renewed))
  {
    if schedule != [] {
      hide Sound, Initial, Step, TokenInv, Once, Overtaken;
      var most, i := schedule[..|schedule| - 1], schedule[|schedule| - 1];
      ExecKeeps(su, s, most);
      OvertakenStep(su, s, schedule);
      StepKeeps(su, Exec(su, s, most), i);
    }
  }

  lemma OvertakenStep(su: Setup, s: State, schedule: seq<nat>)
    requires schedule != []
    ensures var most := schedule[..|schedule| - 1];
            OvertakenIn(su, s, schedule)
            <==> OvertakenIn(su, s, most) || Overtaken(su, Exec(su, s, most), schedule[|schedule| - 1])
  {
    hide Exec, Overtaken;
    var last := |schedule| - 1;
    var most := schedule[..last];
    assert forall m :: 0 <= m < last ==> most[..m] == schedule[..m] && most[m] == schedule[m];
    if OvertakenIn(su, s, most) {
      var m :| 0 <= m < |most| && Overtaken(su, Exec(su, s, most[..m]), most[m]);
      assert Overtaken(su, Exec(su, s, schedule[..m]), schedule[m]);
    }
    if OvertakenIn(su, s, schedule) {
      var m :| 0 <= m < |schedule| && Overtaken(su, Exec(su, s, schedule[..m]), schedule[m]);
      if m < last { assert Overtaken(su, Exec(su, s, most[..m]), most[m]); }
    }
  }

  lemma RedeemRenewsNone(su: Setup, s: State, i: nat, call: Call)
    requires call.RedeemCall?
    ensures RedeemStep(su, s, i, call).renewed == s.renewed
  {
    AtTokens(s, i);
    hide CodeProblem, NewToken, Put, At;
  }

  lemma CompleteRenewsNone(su: Setup, s: State, i: nat, call: Call)
    requires call.CompleteCall?
    ensures CompleteStep(su, s, i, call).renewed == s.renewed
  {
    hide CompleteStep;
    CompleteIsBeside(su, s, i, call);
  }

  lemma RefreshExtends(su: Setup, s: State, i: nat, call: Call)
    requires call.RefreshCall?
    ensures s.renewed <= RefreshStep(su, s, i, call).renewed
  {
    AtTokens(s, i);
    hide NotYetReturned, NewToken, Put, Remove, CarriesRefresh, At;
  }

  lemma StepExtends(su: Setup, s: State, i: nat)
    ensures s.renewed <= Step(su, s, i).renewed
  {
    hide RedeemStep, RefreshStep, CompleteStep;
    var call := su.calls(i);
    match call
    case RedeemCall(_, _, _, _, _, _) => RedeemRenewsNone(su, s, i, call);
    case RefreshCall(_, _, _, _) => RefreshExtends(su, s, i, call);
    case CompleteCall(_, _, _, _) => CompleteRenewsNone(su, s, i, call);
  }

  lemma {:induction false} OvertakenRepeatsIn(su: Setup, s: State, schedule: seq<nat>)
    requires Sound(su.w) && Initial(su.w, s) && OvertakenIn(su, s, schedule)
    ensures !NoDuplicates(Exec(su, s, schedule).renewed)
  {
    if schedule != [] {
      hide Sound, Initial, Step, TokenInv, Overtaken;
      var most, i := schedule[..|schedule| - 1], schedule[|schedule| - 1];
      OvertakenStep(su, s, schedule);
      StepExtends(su, Exec(su, s, most), i);
      if OvertakenIn(su, s, most) {
        OvertakenRepeatsIn(su, s, most);
      } else {
        ExecKeeps(su, s, most);
        OvertakenRepeats(su, Exec(su, s, most), i);
      }
    }
  }

  // ----- rows and the tokens accepted for them -----

  /** Call i read this row, as it was stored, for the refresh token it presents. */
  ghost predicate ReadFor(su: Setup, made: map<string, AccessToken>, i: nat, row: AccessToken) {
    && su.calls(i).RefreshCall? && row.hash in made && made[row.hash] == row
    && CarriesRefresh(row, su.w.hash(su.calls(i).refreshToken))
  }

  ghost predicate ReadsOk(su: Setup, made: map<string, AccessToken>, stages: map<nat, Stage>) {
    forall i :: i in stages && stages[i].Read? ==> ReadFor(su, made, i, stages[i].found)
  }

  ghost predicate AcceptedFor(w: World, made: map<string, AccessToken>, o: string, r: string) {
    o in made && CarriesRefresh(made[o], w.hash(r))
  }

  ghost predicate AcceptedOk(w: World, made: map<string, AccessToken>, renewed: seq<string>, accepted: seq<string>) {
    |renewed| == |accepted| && forall k :: 0 <= k < |renewed| ==> AcceptedFor(w, made, renewed[k], accepted[k])
  }

  ghost predicate Kept(tokens: map<string, AccessToken>, made: map<string, AccessToken>) {
    forall h :: h in tokens ==> h in made && made[h] == tokens[h]
  }

  /** The log of refresh tokens accepted goes with the log of rows renewed, token for row. */
  ghost predicate AcceptInv(su: Setup, s: State) {
    && MadeOk(su.w, s.names, s.made) && Kept(s.tokens.data, s.made)
    && ReadsOk(su, s.made, s.stages) && AcceptedOk(su.w, s.made, s.renewed, s.accepted)
  }

  lemma MadeNames(w: World, n: nat, m: nat, made: map<string, AccessToken>)
    requires MadeOk(w, n, made) && n <= m
    ensures MadeOk(w, m, made)
  {
    forall h: string ensures Minted(w, n, h) ==> Minted(w, m, h) { MintedGrows(w, n, m, h); }
    hide IdentityRuns.RefreshUnique, Minted;
  }

  lemma BesideAccepts(su: Setup, s: State, s': State, i: nat, stage: Stage)
    requires AcceptInv(su, s) && Beside(s, s', i, stage) && (stage.Read? ==> ReadFor(su, s.made, i, stage.found))
    ensures AcceptInv(su, s')
  {
    hide MadeOk, Kept, ReadFor, AcceptedOk;
    MadeNames(su.w, s.names, s'.names, s.made);
  }

  lemma BesidesAccepts(su: Setup, s: State, s': State, i: nat)
    requires AcceptInv(su, s) && Besides(s, s', i)
    ensures AcceptInv(su, s')
  {
    hide AcceptInv, Beside;
    BesideAccepts(su, s, s', i, StageOf(s', i));
  }

  /** Both names of a new pair are new. */
  ghost predicate PairNew(w: World, n: nat, token: AccessToken) {
    && NewTo(w, n, token) && token.refresh.Some?
    && !Minted(w, n, token.refresh.value.hash) && Minted(w, n + 2, token.refresh.value.hash)
  }

  lemma PairIsNew(w: World, n: nat, grant: Grant, now: real, accessTtl: real, refreshTtl: real)
    requires Sound(w)
    ensures PairNew(w, n, NewToken(w, n, grant, now, accessTtl, refreshTtl))
  {
    TokenIsNew(w, n, grant, now, accessTtl, refreshTtl);
    NewIsNew(w, n, n + 1);
  }

  lemma MadeGrows(w: World, n: nat, made: map<string, AccessToken>, token: AccessToken)
    requires MadeOk(w, n, made) && PairNew(w, n, token)
    ensures token.hash !in made && MadeOk(w, n + 2, made[token.hash := token])
  {
    forall h: string ensures Minted(w, n, h) ==> Minted(w, n + 2, h) { MintedGrows(w, n, n + 2, h); }
    hide Minted;
  }

  lemma AcceptedGrows(w: World, made: map<string, AccessToken>, renewed: seq<string>, accepted: seq<string>,
                      token: AccessToken)
    requires AcceptedOk(w, made, renewed, accepted) && token.hash !in made
    ensures AcceptedOk(w, made[token.hash := token], renewed, accepted)
  {
    hide CarriesRefresh;
    forall k | 0 <= k < |renewed| ensures AcceptedFor(w, made[token.hash := token], renewed[k], accepted[k]) {
      assert AcceptedFor(w, made, renewed[k], accepted[k]);
    }
  }

  lemma ReadsGrow(su: Setup, made: map<string, AccessToken>, stages: map<nat, Stage>, token: AccessToken, i: nat,
                  stage: Stage)
    requires ReadsOk(su, made, stages) && token.hash !in made && !stage.Read?
    ensures ReadsOk(su, made[token.hash := token], stages[i := stage])
  {
    hide CarriesRefresh;
    var made', stages' := made[token.hash := token], stages[i := stage];
    forall j | j in stages' && stages'[j].Read? ensures ReadFor(su, made', j, stages'[j].found) {
      assert ReadFor(su, made, j, stages[j].found);
    }
  }

  lemma PairAccepts(su: Setup, s: State, i: nat, row: AuthCode, token: AccessToken)
    requires AcceptInv(su, s) && PairNew(su.w, s.names, token)
    ensures AcceptInv(su, StorePair(s, i, row, token))
  {
    hide MadeOk, ReadsOk, AcceptedOk, PairNew;
    MadeGrows(su.w, s.names, s.made, token);
    AcceptedGrows(su.w, s.made, s.renewed, s.accepted, token);
    ReadsGrow(su, s.made, s.stages, token, i, Redeemed(row.hash));
  }

  lemma PutAccepts(su: Setup, s: State, i: nat, presented: string, row: AccessToken, token: AccessToken)
    requires AcceptInv(su, s) && PairNew(su.w, s.names, token) && AcceptedFor(su.w, s.made, row.hash, presented)
    ensures AcceptInv(su, PutStep(s, i, presented, row, token))
  {
    var made' := s.made[token.hash := token];
    MadeGrows(su.w, s.names, s.made, token);
    assert AcceptedFor(su.w, made', row.hash, presented);
    AcceptedGrows(su.w, s.made, s.renewed, s.accepted, token);
    AcceptedNext(su.w, made', s.renewed, s.accepted, row.hash, presented);
    hide MadeOk, ReadsOk, AcceptedOk, PairNew, AcceptedFor;
    ReadsGrow(su, s.made, s.stages, token, i, Stored(row, token));
  }

  lemma AcceptedNext(w: World, made: map<string, AccessToken>, renewed: seq<string>, accepted: seq<string>, o: string,
                     r: string)
    requires AcceptedOk(w, made, renewed, accepted) && AcceptedFor(w, made, o, r)
    ensures AcceptedOk(w, made, renewed + [o], accepted + [r])
  {
    hide AcceptedFor;
  }

  lemma RotateAccepts(su: Setup, s: State, i: nat, row: AccessToken, token: AccessToken)
    requires TokenInv(su, s) && AcceptInv(su, s) && StageOf(s, i) == Stored(row, token)
    ensures AcceptInv(su, RotateStep(s, i, row, token))
  {
    StagesRotate(su, s.names, s.tokens.data, s.renewed, s.stages, i, row, token);
    RotatedData(s.tokens, row, token);
    hide MadeOk, ReadFor, AcceptedOk, TokenInv, StageOk, Put, Remove;
  }

  lemma AtAccepts(su: Setup, s: State, i: nat, stage: Stage)
    requires AcceptInv(su, s) && !StageOf(s, i).Stored? && (stage.Read? ==> ReadFor(su, s.made, i, stage.found))
    ensures AcceptInv(su, At(s, i, stage))
  {
    hide AcceptInv, ReadFor;
    BesideAccepts(su, s, At(s, i, stage), i, stage);
  }

  /** A row found by the scan is one that was stored, for the token presented. */
  lemma FindsRow(su: Setup, s: State, i: nat, h: string)
    requires TokenInv(su, s) && AcceptInv(su, s) && su.calls(i).RefreshCall? && h in s.tokens.data
    requires CarriesRefresh(s.tokens.data[h], su.w.hash(su.calls(i).refreshToken))
    ensures ReadFor(su, s.made, i, s.tokens.data[h])
  {
    hide StagesOk, Unknown, RenewedOk, MadeOk, ReadsOk, AcceptedOk, CarriesRefresh, Minted;
  }

  lemma ScanAccepts(su: Setup, s: State, i: nat, todo: seq<string>, now: real)
    requires TokenInv(su, s) && AcceptInv(su, s) && su.calls(i).RefreshCall? && StageOf(s, i) == Scanning(todo)
    ensures AcceptInv(su, ScanStep(s, i, su.w.hash(su.calls(i).refreshToken), todo, now))
  {
    hide TokenInv, AcceptInv, CarriesRefresh, At, ReadFor;
    if todo == [] {
      AtAccepts(su, s, i, Failed(UnknownRefresh));
    } else if todo[0] in s.tokens.data && CarriesRefresh(s.tokens.data[todo[0]], su.w.hash(su.calls(i).refreshToken)) {
      FindsRow(su, s, i, todo[0]);
      AtAccepts(su, s, i, Failed(RefreshExpired));
      AtAccepts(su, s, i, Read(s.tokens.data[todo[0]]));
    } else {
      AtAccepts(su, s, i, Scanning(todo[1..]));
    }
  }

  lemma RefreshAccepts(su: Setup, s: State, i: nat, call: Call)
    requires Sound(su.w) && TokenInv(su, s) && AcceptInv(su, s) && call == su.calls(i) && call.RefreshCall?
    ensures AcceptInv(su, RefreshStep(su, s, i, call))
  {
    hide Sound, TokenInv, NotYetReturned, NewToken, ScanStep, RotateStep, PutStep, MadeOk, Kept, AcceptedOk, PairNew;
    match StageOf(s, i)
    case Begun =>
      if !NotYetReturned(s, su.w.hash(call.refreshToken)) {
        BesideAccepts(su, s, At(s, i, Scanning(s.tokens.order)), i, Scanning(s.tokens.order));
      }
    case Scanning(todo) => ScanAccepts(su, s, i, todo, call.now);
    case Read(row) =>
      assert ReadFor(su, s.made, i, row);
      PairIsNew(su.w, s.names, row.grant, call.now, call.accessTtl, call.refreshTtl);
      PutAccepts(su, s, i, call.refreshToken, row,
                 NewToken(su.w, s.names, row.grant, call.now, call.accessTtl, call.refreshTtl));
    case Stored(row, token) => RotateAccepts(su, s, i, row, token);
    case _ =>
  }

  lemma UseIsBeside(s: State, i: nat, row: AuthCode, at: real)
    requires row.hash in s.codes && !StageOf(s, i).Stored?
    ensures Besides(s, UseCode(s, i, row, at), i)
  {
  }

  lemma RedeemAccepts(su: Setup, s: State, i: nat, call: Call)
    requires Sound(su.w) && AcceptInv(su, s) && call == su.calls(i) && call.RedeemCall?
    ensures AcceptInv(su, RedeemStep(su, s, i, call))
  {
    hide Sound, AcceptInv, NewToken, CodeProblem, StorePair, UseCode, At, Besides, PairNew;
    match StageOf(s, i)
    case Begun =>
      var h := su.w.hash(call.code);
      var stage := if h !in s.codes then Failed(UnknownCode) else
                     var problem := CodeProblem(su.w, s.codes[h], call.verifier, call.audience, call.now);
                     if problem.Some? then Failed(problem.value) else Passed(s.codes[h]);
      AtIsBeside(s, i, stage);
      BesidesAccepts(su, s, At(s, i, stage), i);
    case Passed(row) =>
      if row.hash !in s.codes || s.codes[row.hash].consumedAt.Some? {
        AtIsBeside(s, i, Failed(CodeUsed));
        BesidesAccepts(su, s, At(s, i, Failed(CodeUsed)), i);
      } else {
        UseIsBeside(s, i, row, call.now);
        BesidesAccepts(su, s, UseCode(s, i, row, call.now), i);
      }
    case Holding(row) =>
      PairIsNew(su.w, s.names, row.grant, call.now, call.accessTtl, call.refreshTtl);
      PairAccepts(su, s, i, row, NewToken(su.w, s.names, row.grant, call.now, call.accessTtl, call.refreshTtl));
    case _ =>
  }

  lemma StepAccepts(su: Setup, s: State, i: nat)
    requires Sound(su.w) && TokenInv(su, s) && AcceptInv(su, s)
    ensures AcceptInv(su, Step(su, s, i))
  {
    hide Sound, TokenInv, AcceptInv, RedeemStep, RefreshStep, CompleteStep, Besides;
    var call := su.calls(i);
    match call
    case RedeemCall(_, _, _, _, _, _) => RedeemAccepts(su, s, i, call);
    case RefreshCall(_, _, _, _) => RefreshAccepts(su, s, i, call);
    case CompleteCall(_, _, _, _) =>
      CompleteIsBeside(su, s, i, call);
      if CompleteStep(su, s, i, call) != s { BesidesAccepts(su, s, CompleteStep(su, s, i, call), i); }
  }

  lemma InitialAccepts(su: Setup, s: State)
    requires Initial(su.w, s)
    ensures AcceptInv(su, s)
  {
    hide MadeOk, TokensNamed;
  }

  lemma {:induction false} ExecAccepts(su: Setup, s: State, schedule: seq<nat>)
    requires Sound(su.w) && Initial(su.w, s)
    ensures AcceptInv(su, Exec(su, s, schedule))
  {
    if schedule == [] {
      InitialAccepts(su, s);
    } else {
      hide Sound, Initial, Step, TokenInv, AcceptInv;
      var most := schedule[..|schedule| - 1];
      ExecAccepts(su, s, most);
      ExecKeeps(su, s, most);
      StepAccepts(su, Exec(su, s, most), schedule[|schedule| - 1]);
    }
  }

  /** Two acceptances are for one row exactly when they are of one token. */
  lemma SameRowSameToken(w: World, n: nat, made: map<string, AccessToken>, o: string, r: string, o': string, r': string)
    requires Sound(w) && MadeOk(w, n, made) && AcceptedFor(w, made, o, r) && AcceptedFor(w, made, o', r')
    ensures o == o' <==> r == r'
  {
    hide Minted;
  }

  lemma RowsAndTokens(su: Setup, s: State)
    requires Sound(su.w) && AcceptInv(su, s)
    ensures NoDuplicates(s.accepted) <==> NoDuplicates(s.renewed)
  {
    hide Sound, MadeOk, Kept, ReadsOk, AcceptedFor;
    forall i, j | 0 <= i < j < |s.renewed| ensures s.renewed[i] == s.renewed[j] <==> s.accepted[i] == s.accepted[j] {
      SameRowSameToken(su.w, s.names, s.made, s.renewed[i], s.accepted[i], s.renewed[j], s.accepted[j]);
    }
  }

  // ----- result -----

  /**
   In every interleaving of redemptions, refreshes and logins: no refresh token is accepted twice
   exactly when no call stores a pair for a row it read before the rotation of a call that had
   accepted it; and a token accepted twice is a row renewed twice.
   */
  lemma AcceptedOnceExactlyWhenNoneOvertaken(su: Setup, s: State, schedule: seq<nat>)
    requires Sound(su.w) && Initial(su.w, s)
    ensures var t := Exec(su, s, schedule);
            && (NoDuplicates(t.accepted) <==> !OvertakenIn(su, s, schedule))
            && (NoDuplicates(t.accepted) <==> NoDuplicates(t.renewed))
  {
    hide Exec, Initial, AcceptInv, OvertakenIn, TokenInv;
    ExecAccepts(su, s, schedule);
    RowsAndTokens(su, Exec(su, s, schedule));
    if OvertakenIn(su, s, schedule) {
      OvertakenRepeatsIn(su, s, schedule);
    } else {
      ExecKeeps(su, s, schedule);
    }
  }

  // ----- two refreshes at once -----

  const GRANT: Grant := Grant("client", "principal", Some("org"), "aud", "mcp")

  /** Call 0 redeems a code; calls 1 and 2 both present the refresh token it gets. */
  function TwoRefreshes(w: World): Setup {
    Setup(w, map[], map[],
          (i: nat) => if i == 0 then RedeemCall(w.newName(0), "verifier", None, 0.0, 3600.0, 7200.0)
                      else RefreshCall(w.newName(2), 1.0, 3600.0, 7200.0))
  }

  function Code(w: World): AuthCode {
    AuthCode(w.hash(w.newName(0)), GRANT, w.s256("verifier"), 600.0, None)
  }

  function CodeIssued(w: World): State {
    State(map[Code(w).hash := Code(w)], Empty(), map[], {}, {}, map[], 1, map[], [], [], [], map[], map[], [], map[])
  }

  function First(w: World): AccessToken {
    NewToken(w, 1, GRANT, 0.0, 3600.0, 7200.0)
  }

  lemma {:induction false} ExecAppend(su: Setup, s: State, run: seq<nat>, tail: seq<nat>)
    ensures Exec(su, s, run + tail) == Exec(su, Exec(su, s, run), tail)
  {
    hide Step;
    if tail == [] {
      assert run + tail == run;
    } else {
      var all := run + tail;
      assert all[..|all| - 1] == run + tail[..|tail| - 1];
      ExecAppend(su, s, run, tail[..|tail| - 1]);
    }
  }

  lemma ExecTwice(su: Setup, s: State, i: nat)
    ensures Exec(su, s, [i, i]) == Step(su, Step(su, s, i), i)
  {
    hide Step;
    assert [i, i][..1] == [i] && [i][..0] == [];
    assert Exec(su, s, [i]) == Step(su, s, i);
  }

  lemma PairLeaves(s: State, i: nat, row: AuthCode, token: AccessToken)
    ensures var t := StorePair(s, i, row, token);
            && t.tokens == Put(s.tokens, token.hash, token) && t.names == s.names + 2
            && t.renewed == s.renewed && t.accepted == s.accepted
            && t.stages == s.stages[i := Redeemed(row.hash)] && t.origin == s.origin[token.hash := row.hash]
  {
    hide Put;
  }

  lemma PassesAndHolds(w: World)
    ensures var s, c := CodeIssued(w), Code(w);
            var t := Exec(TwoRefreshes(w), s, [0, 0]);
            && t.stages == map[0 := Holding(c)] && t.names == 1 && t.tokens == Empty()
            && t.renewed == t.accepted == [] && t.origin == map[]
  {
    var su, s, c := TwoRefreshes(w), CodeIssued(w), Code(w);
    ExecTwice(su, s, 0);
    hide Exec, Put, NewToken;
    var s1 := Step(su, s, 0);
    assert s1 == At(s, 0, Passed(c));
  }

  lemma StoresFirst(w: World, s: State)
    requires s.stages == map[0 := Holding(Code(w))] && s.names == 1
    ensures Step(TwoRefreshes(w), s, 0) == StorePair(s, 0, Code(w), First(w))
  {
    hide StorePair;
  }

  /** The code is redeemed: one row, which descends from it. */
  lemma Redeems(w: World)
    ensures var s := CodeIssued(w);
            var t := Exec(TwoRefreshes(w), Exec(TwoRefreshes(w), s, [0, 0]), [0]);
            && t.tokens == Put(Empty(), First(w).hash, First(w)) && t.names == 3 && t.renewed == t.accepted == []
            && t.stages == map[0 := Redeemed(Code(w).hash)] && t.origin == map[First(w).hash := Code(w).hash]
  {
    hide Exec, Step, Put, NewToken, StorePair, CodeIssued, TwoRefreshes, First;
    PassesAndHolds(w);
    var s := Exec(TwoRefreshes(w), CodeIssued(w), [0, 0]);
    ExecOnce(TwoRefreshes(w), s, 0);
    StoresFirst(w, s);
    PairLeaves(s, 0, Code(w), First(w));
  }

  lemma ExecOnce(su: Setup, s: State, i: nat)
    ensures Exec(su, s, [i]) == Step(su, s, i)
  {
    hide Step;
    assert [i][..0] == [];
  }

  /** A refresh looks for its row and reads it. */
  lemma ReadsRow(w: World, s: State, i: nat)
    requires i > 0 && i !in s.stages && s.tokens.order == [First(w).hash] && First(w).hash in s.tokens.data
    requires s.tokens.data[First(w).hash] == First(w)
    requires forall j :: j in s.stages ==> !s.stages[j].Stored?
    ensures Exec(TwoRefreshes(w), s, [i, i]) == At(s, i, Read(First(w)))
  {
    var su := TwoRefreshes(w);
    ExecTwice(su, s, i);
    hide Exec;
    var s1 := Step(su, s, i);
    assert s1 == At(s, i, Scanning([First(w).hash]));
    var s2 := Step(su, s1, i);
    assert s2.stages == s.stages[i := Read(First(w))];
  }

  lemma PutLeaves(s: State, i: nat, presented: string, row: AccessToken, token: AccessToken)
    requires row.hash in s.origin
    ensures var t := PutStep(s, i, presented, row, token);
            && t.accepted == s.accepted + [presented]
            && t.tokens.data == s.tokens.data[token.hash := token] && t.names == s.names + 2
            && t.origin == s.origin[token.hash := s.origin[row.hash]] && t.renewed == s.renewed + [row.hash]
            && t.stages == s.stages[i := Stored(row, token)]
  {
  }

  lemma RotateLeaves(s: State, i: nat, row: AccessToken, token: AccessToken)
    ensures var t := RotateStep(s, i, row, token);
            && t.tokens.data == (s.tokens.data - {row.hash})[token.hash := token] && t.names == s.names
            && t.origin == s.origin && t.renewed == s.renewed && t.accepted == s.accepted
            && t.stages == s.stages[i := Renewed(row.hash)]
  {
  }

  /** The token is the one the next pair of this call would be. */
  predicate NextPair(w: World, n: nat, token: AccessToken) {
    token == NewToken(w, n, GRANT, 1.0, 3600.0, 7200.0)
  }

  lemma StepsOfRefresh(w: World, s: State, i: nat, token: AccessToken)
    requires i > 0 && StageOf(s, i) == Read(First(w)) && NextPair(w, s.names, token)
    ensures Step(TwoRefreshes(w), s, i) == PutStep(s, i, w.newName(2), First(w), token)
    ensures forall t :: StageOf(t, i) == Stored(First(w), token) ==>
              Step(TwoRefreshes(w), t, i) == RotateStep(t, i, First(w), token)
  {
    hide PutStep, RotateStep;
  }

  /** It stores its pair and rotates the row away, if it is still there. */
  lemma StoresAndRotates(w: World, s: State, i: nat, token: AccessToken)
    requires i > 0 && StageOf(s, i) == Read(First(w)) && First(w).hash in s.origin
    requires NextPair(w, s.names, token) && token.hash != First(w).hash
    ensures var t := Exec(TwoRefreshes(w), s, [i, i]);
            && t.tokens.data == (s.tokens.data - {First(w).hash})[token.hash := token]
            && t.origin == s.origin[token.hash := s.origin[First(w).hash]]
            && t.renewed == s.renewed + [First(w).hash] && t.accepted == s.accepted + [w.newName(2)]
            && t.names == s.names + 2
            && t.stages == s.stages[i := Renewed(First(w).hash)]
  {
    hide Exec, Step, NextPair, First, TwoRefreshes, PutStep, RotateStep;
    ExecTwice(TwoRefreshes(w), s, i);
    StepsOfRefresh(w, s, i, token);
    PutLeaves(s, i, w.newName(2), First(w), token);
    RotateLeaves(PutStep(s, i, w.newName(2), First(w), token), i, First(w), token);
  }

  lemma NamesDiffer(w: World)
    requires Sound(w)
    ensures Initial(w, CodeIssued(w))
    ensures w.hash(w.newName(1)) != w.hash(w.newName(3)) && w.hash(w.newName(1)) != w.hash(w.newName(5))
    ensures w.hash(w.newName(3)) != w.hash(w.newName(5))
  {
    assert Minted(w, 1, Code(w).hash);
    assert w.newName(1) != w.newName(3) && w.newName(3) != w.newName(5) && w.newName(1) != w.newName(5);
  }

  /** The two refreshes up to the point where both have read the row. */
  lemma BothRead(w: World)
    ensures var t := Exec(TwoRefreshes(w), CodeIssued(w), ([0, 0] + [0]) + ([1, 1] + [2, 2]));
            && t.tokens.data == map[First(w).hash := First(w)] && t.names == 3 && t.renewed == t.accepted == []
            && t.origin == map[First(w).hash := Code(w).hash]
            && StageOf(t, 1) == Read(First(w)) && StageOf(t, 2) == Read(First(w))
  {
    hide Exec, Step, TwoRefreshes, CodeIssued;
    var su, s := TwoRefreshes(w), CodeIssued(w);
    ExecAppend(su, s, [0, 0] + [0], [1, 1] + [2, 2]);
    ExecAppend(su, s, [0, 0], [0]);
    Redeems(w);
    var u := Exec(su, s, [0, 0] + [0]);
    ExecAppend(su, u, [1, 1], [2, 2]);
    ReadsRow(w, u, 1);
    ReadsRow(w, At(u, 1, Read(First(w))), 2);
  }

  lemma BothStored(w: World, u: State, second: AccessToken, third: AccessToken)
    requires StageOf(u, 1) == Read(First(w)) && StageOf(u, 2) == Read(First(w)) && First(w).hash in u.origin
    requires u.tokens.data == map[First(w).hash := First(w)] && u.renewed == u.accepted == []
    requires NextPair(w, u.names, second) && NextPair(w, u.names + 2, third)
    requires second.hash != First(w).hash && third.hash != First(w).hash && second.hash != third.hash
    ensures var t := Exec(TwoRefreshes(w), Exec(TwoRefreshes(w), u, [1, 1]), [2, 2]);
            && t.renewed == [First(w).hash, First(w).hash] && t.accepted == [w.newName(2), w.newName(2)]
            && t.tokens.data == map[second.hash := second, third.hash := third]
            && second.hash in t.origin && third.hash in t.origin
            && t.origin[second.hash] == t.origin[third.hash] == u.origin[First(w).hash]
  {
    hide Exec, NextPair, First, TwoRefreshes;
    StoresAndRotates(w, u, 1, second);
    var v := Exec(TwoRefreshes(w), u, [1, 1]);
    assert v.tokens.data == map[second.hash := second] && StageOf(v, 2) == StageOf(u, 2);
    StoresAndRotates(w, v, 2, third);
  }

  /**
   One refresh token is accepted twice: both calls read the row before either rotates it, and
   the code it came from is left with two live rows.
   */
  lemma TwoRefreshesBothAccepted(w: World)
    requires Sound(w)
    ensures Initial(w, CodeIssued(w))
    ensures var run := (([0, 0] + [0]) + ([1, 1] + [2, 2])) + ([1, 1] + [2, 2]);
            var t := Exec(TwoRefreshes(w), CodeIssued(w), run);
            var h, h' := w.hash(w.newName(3)), w.hash(w.newName(5));
            && t.accepted == [w.newName(2), w.newName(2)]
            && h != h' && t.tokens.data.Keys == {h, h'}
            && h in t.origin && h' in t.origin && t.origin[h] == t.origin[h'] == Code(w).hash
  {
    NamesDiffer(w);
    var second, third := NewToken(w, 3, GRANT, 1.0, 3600.0, 7200.0), NewToken(w, 5, GRANT, 1.0, 3600.0, 7200.0);
    assert second.hash == w.hash(w.newName(3)) && third.hash == w.hash(w.newName(5))
           && First(w).hash == w.hash(w.newName(1));
    assert NextPair(w, 3, second) && NextPair(w, 5, third);
    hide Exec, TwoRefreshes, CodeIssued, Initial, Sound, NewToken, NextPair, First, Code;
    var su, s := TwoRefreshes(w), CodeIssued(w);
    BothRead(w);
    var u := Exec(su, s, ([0, 0] + [0]) + ([1, 1] + [2, 2]));
    BothStored(w, u, second, third);
    ExecAppend(su, s, ([0, 0] + [0]) + ([1, 1] + [2, 2]), [1, 1] + [2, 2]);
    ExecAppend(su, u, [1, 1], [2, 2]);
  }
}
