# Verified model of the islands kernel

This project models the parts of the kernel that keep state under a rule, and proves the rules
over whole runs:

- **Single-writer refresh** (`Leases`, `FileLease`, `FileAlone`, `Refresh`, `RefreshCalls`,
  `TokenChain`, `RefreshMachine`, `RefreshAlone`, `FileRefresh`). Callers race to refresh a rotating
  OAuth token under a timed lease. The lease is given as a dictionary, as an insert-or-ignore
  followed by a conditional update, and as one lock file published by a hard link or a rename; the
  three are related by refinement. One caller is a loop proved to make exactly the calls of an
  automaton, whatever the store, clock and provider answer, and `RefreshCalls` says of each of its
  calls, by the calls before it, why it is made; any number of callers are an interleaving of those
  automata, one outside call per step. `TokenChain` proves what they do to the token whatever the
  lease answers, `RefreshMachine` puts them over the dictionary lease and `FileRefresh` over the
  lock file, one file-system call per step. `FileAlone` and `RefreshAlone` say what a user of the
  lock file and a whole refresh come to when nobody comes between.
- **The event bus** (`Deliveries`, `LedgerSpec`, `BusService`, `LedgerRuns`, `LedgerLog`,
  `LedgerAnswers`, `DispatchMachine`, `WorkerAlone`, `Backoff`, `Glob`). Publish with dedup,
  subscriptions with patterns, dispatch under a lease per delivery, backoff, dead letters and
  replay. `BusService.Bus` updates its dictionaries in place and is proved equal to the functions of
  `LedgerSpec`; `LedgerRuns` proves what every sequential run keeps, `LedgerLog` that the log of
  handler calls determines every row, and `LedgerAnswers` who is turned down and whose handler is
  called; `DispatchMachine` interleaves any number of dispatchers and retries, and `WorkerAlone`
  proves that one nobody comes between does what `LedgerSpec` does.
- **Identity** (`IdentitySpec`, `IdentityService`, `Names`, `IdentityRuns`, `IdentityResults`,
  `IdentityAnswers`, `OneUse`, `Undisturbed`, `LoginEcho`, `RefreshRace`, `FirstLogins`).
  Authorization codes, refresh-token families, federated login and token exchange.
  `IdentityService.Kernel` updates its store in place and is proved equal to `IdentitySpec`;
  `IdentityRuns` carries the invariant of every sequential run, `IdentityResults` its consequences,
  and `IdentityAnswers` says exactly when each operation succeeds and which error it gives otherwise;
  `OneUse` interleaves redemptions, refreshes and login completions, one store call at a time,
  `Undisturbed` proves that a call nobody comes between does what `IdentitySpec` does, `LoginEcho`
  that every code issued was vouched for, and `RefreshRace` and `FirstLogins` say exactly when the
  last two operations keep their promises.
- **Codecs and margins** (`Base64Url`, `SignedState`, `Envelope`, `JwtCache`).

`Wrappers`, `Octets` and `Dict` hold the option and result types, octets and the insertion-ordered
dictionary.

The rules implemented are those of section 4.1.2 of RFC 6749 (one-use codes), section 6 of RFC 6749
(refresh), section 4.6 of RFC 7636 (the PKCE check) and section 5 of RFC 4648 (base64url).

## What was found

- A comment at `vault/store/local_file.py:104-105` says that exactly one stealer of an expired lock
  wins. It is not so: `FileLease.TwoStealersBothWin` gives a run in which two stealers replace and
  read back in turn and both acquire, no lease ever having run out on its owner, and
  `FileRefresh.StealRaceRefreshesTwice` has them refresh one token version twice. Exclusion is safe
  whatever comes next if and only if no live lock is renamed over and nobody gets in while a
  namesake is between its rename and its read-back (`FileLease.SafeExactlyWhenUndisturbed`); with
  different names only the first matters (`FileLease.SafeExactlyWithoutLiveSteal`), and with owners
  that keep within their leases it is enough that each rename lands on the very file that was read
  as expired (`FileLease.StealsOfInspectedFilesAreSafe`).
- The holder name of a refresh is derived from the key and a clock reading (`vault/refresh.py:32`),
  so two callers may share a name. `FileLease.SharedNameFoolsReadBack` shows the read-back then fails
  even for steals nobody is in the way of. The dictionary and relational leases do not need distinct
  names, and `RefreshMachine` does not assume them.
- Whatever the lease, each token version is refreshed at most once if and only if the provider never
  answers a caller whose version has been replaced or is answered already
  (`TokenChain.RefreshedOnceExactlyWithoutRepeats`). A lease that runs out is harmless until somebody
  else enters on it: one caller at a time is inside if and only if none enters with a clock reading
  at or past the deadline of one inside (`RefreshMachine.ExclusiveExactlyWithoutLateEntry`, and
  `DispatchMachine` likewise), and then the only such answers are for a version whose first answer
  died with its caller, unwritten (`RefreshMachine.RefreshedAtMostOnce`, and `FileRefresh` likewise).
  `RefreshMachine.ExpiryRefreshesTwice` and `RefreshMachine.LostAnswerRefreshesTwice` are runs that
  refresh twice.
- A worker that dies between a handler's return and the row that records it makes the delivery
  happen again (`DispatchMachine.LostOutcomeDeliversTwice`). A handler succeeds at most once for a
  delivery if and only if it never succeeds for one with an earlier success that is stored, in a
  worker's hands, lost with one or erased by a failure stored over it; with nobody late only the
  lost ones are left (`DispatchMachine.DeliveredOnceExactlyWhenNeverRedelivered`).
- Two refreshes of one token at once can both be accepted, leaving two live rows for one code:
  `RefreshRace.TwoRefreshesBothAccepted`. It happens exactly when one reads the row before the
  rotation of another that accepted it: `RefreshRace.AcceptedOnceExactlyWhenNoneOvertaken`.
- Two first logins of one user at once leave one of them with a principal no link names:
  `FirstLogins.TwoFirstLoginsSplitTheUser`. `FirstLogins.LoginsResolveExactlyWhenNoneOverwrites`
  says exactly when every login keeps its principal.
- `identity/federation/principals.py:9-11` promises a real org on the connector token; for an island
  whose org id is the empty string the exchange gives no role (`IdentityResults.FederatedExchange`).
- Parsing an envelope silently shortens a part that runs past the end of the blob;
  `Envelope.ReprintExactlyInBounds` says exactly when a parsed envelope prints back what was read.
- Distinct deliveries may share a lease key (`Deliveries.LeaseKeysCollide`);
  `DispatchMachine.DeliveredAtMostOnce` holds all the same.

## Model

| member | source | states |
|---|---|---|
| Leases.StepEquivalent | vault/store/server.py:77-98 | each lease statement pair gives the dictionary lease's answer and leaves the dictionary it stands for, keeping the primary key |
| Leases.TraceEquivalent | bus/store/server.py:149-168 | every sequence of acquire, release and held calls gives the same answers and the same final dictionary in both forms |
| Leases.ExclusiveUntilDeadline | vault/store/memory.py:35-52 | after a granted acquire no acquire at a time before its deadline is granted until that holder releases, and the next one then is, in both forms |
| Leases.VaultMemoryLeases.AcquireLease | vault/store/memory.py:35-41 | the in-place vault dictionary acquires as the lease specification does |
| Leases.VaultMemoryLeases.ReleaseLease | vault/store/memory.py:43-47 | only the holder's lease is removed |
| Leases.VaultMemoryLeases.LeaseHeld | vault/store/memory.py:49-52 | held exactly when a lease with a later deadline is stored |
| Leases.VaultMemoryLeases.RunAll | vault/store/memory.py:35-52 | any sequence of calls on the object gives the answers and the dictionary of the specification's run |
| Leases.BusMemoryLeases.AcquireLease | bus/store/memory.py:69-75 | the bus dictionary, tested the other way round, acquires as the same specification does |
| Leases.BusMemoryLeases.ReleaseLease | bus/store/memory.py:77-81 | only the holder's lease is removed |
| Leases.BusMemoryLeases.LeaseHeld | bus/store/memory.py:83-85 | held exactly when a lease with a later deadline is stored |
| Leases.BusMemoryLeases.RunAll | bus/store/memory.py:69-85 | any sequence of calls on the object gives the answers and the dictionary of the specification's run |
| Leases.SqlLeases.AcquireLease | vault/store/server.py:77-88 | insert-or-ignore, then update-where-expired, acquires as the dictionary does |
| Leases.SqlLeases.ReleaseLease | vault/store/server.py:90-92 | delete by key and holder releases as the dictionary does |
| Leases.SqlLeases.LeaseHeld | vault/store/server.py:94-98 | the selected deadline answers as the dictionary does |
| Leases.SqlLeases.RunAll | bus/store/server.py:149-168 | any sequence of calls on the table gives the answers of the dictionary's run, and the table stands for its dictionary |
| FileLease.RecordRoundTrip | vault/store/local_file.py:79-95 | a complete lock record reads back to the holder and deadline written, for every deadline that prints (as every float does) |
| FileLease.LocalFileLease.AcquireLease | vault/store/local_file.py:87-114 | one caller at a time, link-or-replace with read-back acquires as the dictionary lease does and leaves no temporary; over a lock that cannot be read it fails and changes nothing |
| FileLease.LocalFileLease.ReleaseLease | vault/store/local_file.py:116-122 | one caller at a time, releases as the dictionary lease does, unlinking exactly a lock that carries the caller's name |
| FileLease.LocalFileLease.LeaseHeld | vault/store/local_file.py:124-130 | answers as the dictionary lease does, and that a lock that cannot be read is held |
| FileLease.ExclusiveUnlessLiveSteal | vault/store/local_file.py:87-122 | in every interleaving of file-system steps where no live lock is renamed over, one process at most is between acquire and release, and the lock path always holds one complete record |
| FileLease.ExclusiveWithoutExpiry | vault/store/local_file.py:98-103 | when nobody reads an expired lock the same holds even for processes that share a name |
| FileLease.SafeExactlyWhenUndisturbed | vault/store/local_file.py:98-111 | over whole runs, whether or not processes share a name, nobody can be brought into the section beside another, whoever calls next at whatever point, if and only if no live lock is renamed over and nobody gets in while a namesake is between its rename and its read-back |
| FileLease.SafeExactlyWithoutLiveSteal | vault/store/local_file.py:101-109 | with different names that is so if and only if no live lock is renamed over |
| FileLease.StealsOfInspectedFilesAreSafe | vault/store/local_file.py:101-109 | with owners that keep within their leases, exclusion and whole records hold in every run whose renames land on the very file read as expired |
| FileLease.StealIsSafeExactlyWhenVacant | vault/store/local_file.py:104-111 | a rename and its read-back keep the section exclusive if and only if nobody is in it at the rename |
| FileLease.TwoStealersBothWin | vault/store/local_file.py:104-111 | two stealers of different names can both acquire, no lease having run out at any point of the run: the second renames over a file other than the one it read as expired |
| FileLease.SharedNameFoolsReadBack | vault/store/local_file.py:108-109 | two stealers of one name can both acquire though nobody is in the section at either rename: the first gets in while its namesake waits to read back |
| FileAlone.AcquiresAlone | vault/store/local_file.py:87-114 | from any state of the directory, the file-system calls of an acquire that nobody comes between give the dictionary lease's answer and table; over a lock that cannot be read they fail and leave it |
| FileAlone.ReleasesAlone | vault/store/local_file.py:116-122 | likewise the calls of a release unlink the lock exactly when it carries the caller's name, as the dictionary lease does |
| FileAlone.ProbeIsHeld | vault/store/local_file.py:124-130 | lease_held over the lock file is held in the dictionary, a lock that cannot be read or vanishes before its read counting as held |
| Refresh.RefreshIfNeeded | vault/refresh.py:8-62 | the nested loop ends and makes exactly the calls of the automaton, ending in the outcome it returns or raises |
| Refresh.TryLease | vault/refresh.py:37-38 | one lease attempt, at a clock value just read, leads into the section, to the wait, or to the timeout |
| Refresh.WithLease | vault/refresh.py:40-46 | double-checked read, provider call with the token read, write of what it gave |
| Refresh.WaitForHolder | vault/refresh.py:50-62 | the poll loop ends with an outcome or goes back to acquire with less of its budget |
| Refresh.CallHalts | vault/refresh.py:33-62 | at most ceil(timeout / poll) sleeps and max(1, that) acquire attempts, and a bounded number of calls, whatever the answers |
| Refresh.LeaseBracket | vault/refresh.py:38-48 | the lease is acquired at most once and freed on every way out |
| Refresh.WritesUnderLease | vault/refresh.py:44-45 | the provider is asked and the token written only between acquire and release |
| Refresh.ReturnIsFreshOrOwn | vault/refresh.py:24-57 | any token returned was read from the store and, at a later clock reading of the call, was more than the skew before its expiry, or was written by the call under the lease |
| RefreshCalls.CallsFollow | vault/refresh.py:24-62 | whatever the answers, each call of a refresh is the one owed after the calls before it, stated by those calls, times and the skew alone, and a finished refresh ended as they say |
| RefreshCalls.AsksOnlyWhenDue | vault/refresh.py:40-44 | the provider is asked only about the token read just before, under the lease, when the clock reading just before plus the skew has reached its expiry |
| RefreshCalls.FirstLookDecides | vault/refresh.py:28-38 | a token more than the skew before its expiry at the first reading is returned after those two calls; otherwise the call goes on to read the clock and try the lease |
| RefreshCalls.TimesOutAfterEverySleep | vault/refresh.py:50-62 | a call that times out slept until the timeout was used up in twentieths of a second, and not once more |
| RefreshMachine.ExclusiveExactlyWithoutLateEntry | vault/refresh.py:36-48 | in every interleaving of any number of callers, dying where they may, one at most is ever inside if and only if none enters with a clock reading at or past the deadline of one inside |
| TokenChain.RefreshedOnceExactlyWithoutRepeats | vault/refresh.py:8-62 | whatever the clocks and the lease answer, in every interleaving of any number of callers, dying where they may, each token version is refreshed at most once if and only if the provider never answers a caller whose version has been replaced or is answered already; the stored tokens then form one chain |
| TokenChain.OneRefreshServesAll | vault/refresh.py:32-62 | whatever the lease answers, if there are no such answers and at every clock reading the first token is expired and its replacement is not, there is at most one refresh and every caller that returns returns its token |
| RefreshMachine.RefreshedAtMostOnce | vault/refresh.py:32-48 | over the dictionary lease the same holds of every run, late or not; with nobody late the answers to avoid are those for a version whose first answer died with its caller |
| RefreshMachine.TimelyIsNeverLate | vault/refresh.py:37-48 | leases that outlast their sections are enough: nobody is then late |
| RefreshMachine.UnlostIsNeverAskedAgain | vault/refresh.py:44-45 | callers that do not die between answer and write are enough: nobody then asks again |
| RefreshMachine.OneRefreshServesAll | vault/refresh.py:32-62 | without repeated answers, if the first token is expired from the start and its replacement stays unexpired to the end there is at most one refresh and every caller that returns returns its token |
| RefreshMachine.EntersExactlyOnExpiry | vault/refresh.py:37-38 | at one step, a second caller gets in beside the first if and only if it read a clock at or past the first one's deadline |
| RefreshMachine.ExpiryRefreshesTwice | vault/refresh.py:36-48 | with a late entry one token version is refreshed twice |
| RefreshMachine.LostAnswerRefreshesTwice | vault/refresh.py:44-45 | with nobody late, a caller that dies between the provider's answer and the write makes the next one refresh the same version again |
| RefreshAlone.RefreshesAlone | vault/refresh.py:8-62 | from any state, a caller nobody comes between returns the stored token while it is fresh; with the lease free asks the provider once about that token, stores and returns the answer or raises, and leaves the lease free; with the lease held times out; all within the promised number of calls |
| FileRefresh.RefreshedAtMostOnce | vault/store/local_file.py:87-130 | over the lock file, in every interleaving of file-system, store and provider calls, the same holds of every run; while no live lock is renamed over and nobody gets in before a namesake's read-back, the answers to avoid are those for a version whose first answer died with its caller |
| FileRefresh.StealRaceRefreshesTwice | vault/store/local_file.py:104-111 | two callers of different names steal one expired lock in turn and refresh one token version twice, no lease having run out at any point of the run |
| BusService.Bus.Deliver | bus/dispatch.py:70-90 | re-read, handler call and row written are those of the specification |
| BusService.Bus.Attempt | bus/dispatch.py:58-92 | one attempt changes the ledger as the specification does, on every path |
| BusService.Bus.Dispatch | bus/dispatch.py:47-49 | attempts every matching subscription, in order |
| BusService.Bus.AttemptPending | bus/dispatch.py:51-56 | attempts a stored delivery unless its event or subscription is gone |
| BusService.Bus.Publish | bus/service.py:36-44 | stamps, checks, records and dispatches as the specification does, with the same reply |
| BusService.Bus.Subscribe | bus/service.py:46-52 | stores a subscription under a new name once authorized |
| BusService.Bus.Unsubscribe | bus/service.py:54-55 | removes the subscription |
| BusService.Bus.Replay | bus/service.py:63-72 | the loop over dead rows rewrites and retries as the specification does, with the same count |
| BusService.Bus.RunAll | bus/service.py:36-72 | any sequence of operations on an empty bus object ends in the specification's run, with every row legal, counted by its calls and as its last call left it |
| LedgerRuns.AttemptEffect | bus/dispatch.py:58-92 | with no lease outstanding an attempt is one handler call and one row, and leaves no lease |
| LedgerRuns.PublishEffect | bus/service.py:36-44 | a rejected or repeated publish leaves the ledger as it was; a first one logs the event, gives exactly the matching subscriptions a row of one attempt, and touches no other row |
| LedgerRuns.ReplayEffect | bus/service.py:63-72 | replay counts exactly the dead rows of the event in the org, changes only those, keeps the set of rows, and leaves each delivered, dead with one more attempt, or pending unchanged when its subscription is gone |
| LedgerRuns.SubscribeKeepsInv | bus/service.py:46-52 | a subscription comes under an id no subscription or row ever had, so it starts without a backlog; a refused one changes nothing |
| LedgerRuns.ApplyKeepsInv | bus/service.py:36-72 | every operation keeps the row, lease, call-count and log invariant |
| LedgerRuns.RowsAlwaysLegal | bus/dispatch.py:58-92 | after every run each row's status, error, next time and attempts agree, its attempts count its handler calls, and no lease is left |
| LedgerRuns.HandlersStayInOrg | bus/store/memory.py:43-45 | no run calls a handler for a subscription of another org or one whose pattern does not match, redeliveries included |
| LedgerRuns.OnlyReplayStrands | bus/service.py:63-72 | a row pending with nothing scheduled arises only from replay |
| LedgerRuns.LogsExactlyWhenNew | bus/store/memory.py:18-24 | an operation logs a key exactly when it is the publish answered as not deduped, and a deduped one changes nothing |
| LedgerRuns.PublishedOnce | bus/service.py:41-44 | over every run a key is logged exactly when one publish of it answered as not deduped, and then exactly one did |
| LedgerRuns.FirstEventStays | bus/store/memory.py:18-24 | the event first logged under a key stays there for the rest of the run |
| LedgerLog.DeliveredExactlyWhenLastSucceeded | bus/dispatch.py:60-90 | over every run a row exists exactly when a call was made for it and says delivered exactly when the last one succeeded, and no call follows a success |
| LedgerLog.AlwaysFailing | bus/dispatch.py:75-87 | over every run, whatever other handlers do, a row whose calls all failed is dead exactly from attempt max_attempts on, and before that pending until the base, doubled once for each attempt before its last and capped, has passed since that attempt started; only a replay of its event with the subscription gone leaves it otherwise |
| LedgerLog.ScheduleBounded | bus/dispatch.py:33-35 | over every run all the delay ever scheduled for a row is at most the geometric sum and at most the capped sum |
| LedgerAnswers.PublishAnswers | bus/service.py:28-44 | a publish is denied if and only if its principal may not use the type in the org at the clock reading taken, turned down for its envelope or data if and only if it may and that check is the first to fail, and published exactly otherwise, deduped exactly when its key is logged |
| LedgerAnswers.SubscribeAnswers | bus/service.py:46-52 | a subscription is stored, just as asked for, if and only if its principal may use the type in the org at the clock reading taken; otherwise nothing is |
| LedgerAnswers.EveryEventWasAuthorized | bus/service.py:36-44 | over every run each logged event was logged by a publish whose principal was authorized for its org and type then, and carries that principal and org |
| LedgerAnswers.EverySubscriptionWasAuthorized | bus/service.py:46-52 | over every run each stored subscription was asked for by a principal authorized for its org and type then |
| LedgerAnswers.PublishCallsInOrder | bus/dispatch.py:47-49 | a first publish calls the handler of each matching subscription once, in the order the subscriptions were made |
| LedgerAnswers.HeldDeliveryIsSkipped | bus/dispatch.py:64-68 | while a lease on the delivery's own key lasts, an attempt calls no handler and changes no row |
| LedgerAnswers.OutcomesAreHeard | bus/dispatch.py:76-90 | over every run the outcome logged for a call is the one its handler gave |
| LedgerAnswers.RemovedIsNeverCalled | bus/service.py:54-55 | over every run, once a subscription is removed its id never comes back and its handler is never called again |
| DispatchMachine.ExclusiveExactlyWithoutLateEntry | bus/dispatch.py:64-92 | in every interleaving, workers dying where they may, workers inside hold different leases throughout if and only if none enters at or past the deadline of one inside on its lease |
| DispatchMachine.TimelyIsNeverLate | bus/dispatch.py:64-92 | leases that outlast their attempts are enough: nobody is then late |
| DispatchMachine.EveryCallAccounted | bus/dispatch.py:58-92 | given that, every completed call of a row is stored in its attempts, owed by one worker about to store it, or lost with one that died, and so of successes |
| DispatchMachine.DeliveredOnceExactlyWhenNeverRedelivered | bus/dispatch.py:58-92 | in every interleaving, late or not, the handler succeeds at most once for a row if and only if it never succeeds for one with an earlier success stored, held, lost or erased; with nobody late, if and only if it never succeeds again after a success lost with its worker |
| DispatchMachine.DeliveredAtMostOnce | bus/dispatch.py:47-92 | with nobody late and no worker dying on an outcome nothing is redelivered, the handler succeeds at most once per delivery and attempts equal completed calls, but for one whose row is about to be stored |
| DispatchMachine.DeliveredIsFinal | bus/dispatch.py:60-73 | with nobody late, once a row says delivered no step of any worker changes it |
| DispatchMachine.EntersExactlyOnExpiry | bus/dispatch.py:64-68 | at one step, a second worker gets in beside the first if and only if it read a clock at or past the first one's deadline |
| DispatchMachine.ExpiryDeliversTwice | bus/dispatch.py:64-90 | with a late entry the handler succeeds twice for one delivery |
| DispatchMachine.LostOutcomeDeliversTwice | bus/dispatch.py:76-90 | with nobody late, a worker that dies between a handler's success and its row makes the delivery happen again |
| WorkerAlone.DispatchesAlone | bus/dispatch.py:47-92 | from any state, a dispatcher nobody comes between leaves the rows, leases, calls and outcomes of the sequential bus's dispatch, whatever the clock readings, names and outcomes |
| WorkerAlone.RetriesAlone | bus/dispatch.py:51-92 | likewise a retry of a stored delivery |
| WorkerAlone.FirstEventStays | bus/store/memory.py:18-24 | in every interleaving the event first recorded under a key stays |
| Backoff.DelayBounds | bus/dispatch.py:33-35 | every delay is positive and at most the cap, and the next is no shorter |
| Backoff.DelaysNondecreasing | bus/dispatch.py:33-35 | delays never shrink with the number of attempts |
| Backoff.DelayIsBaseDoubled | bus/dispatch.py:33-35 | the n-th delay is the base doubled n - 1 times, or the cap where that is more |
| Backoff.DelayDoubles | bus/dispatch.py:33-35 | the first delay is the base and each next one twice the last, up to the cap |
| Backoff.TotalDelayBound | bus/dispatch.py:33-35 | n delays sum to at most base * (2^n - 1) and at most n * cap |
| Glob.MatchesExactly | bus/store/base.py:50-56 | a pattern matches exactly the equal type and, when it is p followed by ".*", every type whose dot-separated segments p's properly start |
| Glob.DottedPrefix | bus/store/base.py:54-55 | starting with p and a dot is the same as having p's segments as a proper prefix |
| Glob.LongerGlobMatchesLess | bus/store/base.py:50-56 | a longer glob's matches are contained in those of its segment-prefix globs |
| IdentityService.Kernel.ResolveClient | identity/oauth/clients.py:18-33 | a known client, or one fetched and stored, or the error |
| IdentityService.Kernel.IssueAuthCode | identity/oauth/authorize_endpoint.py:18-46 | stores one code under a new name, or fails as the specification does |
| IdentityService.Kernel.ConsumeAuthCode | identity/store/memory.py:71-77 | a code is consumed exactly once |
| IdentityService.Kernel.IssuePair | identity/oauth/token_endpoint.py:16-35 | stores one row for two new names |
| IdentityService.Kernel.RedeemCode | identity/oauth/token_endpoint.py:38-60 | checks, consumes and issues as the specification does, in that order |
| IdentityService.Kernel.ScanForRefresh | identity/oauth/token_endpoint.py:64-70 | the loop over token hashes finds the first row that carries the refresh hash, or none |
| IdentityService.Kernel.Refresh | identity/oauth/token_endpoint.py:63-88 | scans, issues and rotates as the specification does |
| IdentityService.Kernel.StartFederation | identity/federation/flow.py:16-35 | stores one transaction for an enabled island, or fails as the specification does |
| IdentityService.Kernel.ConsumeTxn | identity/store/memory.py:125-131 | a transaction is consumed exactly once |
| IdentityService.Kernel.FindOrCreate | identity/federation/principals.py:5-23 | the linked principal, or a new one with its membership and link |
| IdentityService.Kernel.CompleteFederation | identity/federation/flow.py:38-76 | consumes the transaction, checks the island's answer and issues a code as the specification does |
| IdentityService.Kernel.RunAll | identity/oauth/token_endpoint.py:16-88 | any sequence of operations on the object ends in the specification's run and, from a store with nothing issued, keeps what every run keeps |
| IdentityRuns.ApplyKeepsInv | identity/oauth/token_endpoint.py:16-88 | every operation keeps names, lineage, refresh hashes, links and logins consistent |
| IdentityRuns.ExecKeepsInv | identity/store/memory.py:67-131 | so does every run from a store with nothing issued |
| IdentityResults.OneRowPerRedeemedCode | identity/oauth/token_endpoint.py:38-88 | each redeemed code has exactly one live token row, each row carries the client, principal, org, audience and scope of the redeemed code it descends from, and no two rows carry one refresh hash |
| IdentityResults.GrantOutlivesRun | identity/store/memory.py:67-77 | what an issued code carries never changes |
| IdentityResults.CodeRedeemedOnce | identity/oauth/token_endpoint.py:38-60 | a code redeemed once is refused ever after, and a refusal changes nothing |
| IdentityResults.RefreshAcceptedOnce | identity/oauth/token_endpoint.py:63-88 | in every sequential run a refresh token accepted once is unknown ever after, whatever is done in between |
| IdentityResults.RedeemSucceedsExactly | identity/oauth/token_endpoint.py:39-49 | a redemption succeeds if and only if the code is known, in time, for this audience, proved by PKCE and unused; it then uses that code alone, and a refusal changes nothing |
| IdentityResults.RedemptionAdds | identity/oauth/token_endpoint.py:16-60 | a redemption adds the row of its pair, with the code's grant and both lifetimes from now, under a hash no row had, and changes no other row |
| IdentityResults.RefreshSucceedsExactly | identity/oauth/token_endpoint.py:64-74 | in every reachable state a refresh succeeds if and only if some live row carries the token, in time |
| IdentityResults.RotationReplaces | identity/oauth/token_endpoint.py:75-88 | an accepted refresh puts the row of its pair in place of the one renewed, with the same grant and new lifetimes, and changes no other row |
| IdentityResults.TtlIsLifetime | identity/oauth/token_endpoint.py:6-13 | a refresh token lives as long as asked, as a registered island of its audience says, or thirty days |
| IdentityResults.CompletionUsesTxn | identity/federation/flow.py:40-46 | a transaction found in time is used up by the attempt, whatever the island answers; found late or used it changes nothing |
| IdentityResults.LoginCompletedOnce | identity/federation/flow.py:38-46 | a login transaction completed once never yields a second code |
| IdentityResults.LookupsAreInverse | identity/store/memory.py:111-118 | after every run the island-user to principal map and the principal to island-user lookup are inverses |
| IdentityResults.PrincipalIsStable | identity/federation/principals.py:13-15 | the same user of the same island is the same principal for ever |
| IdentityResults.FederatedExchange | identity/exchange.py:8-32 | exchanging a token descended from a completed login gives the transaction's island, the asserted user, the island's org and the member role, the last unless the org id is empty |
| IdentityResults.LoginWorks | identity/federation/flow.py:16-76 | from any reachable state a login through an enabled island, completed and redeemed in time, ends in a token that resolves to that user |
| IdentityAnswers.ResolveAnswers | identity/oauth/clients.py:18-33 | a client is resolved if and only if it is stored, or its document, fetched from its https id, lists redirects; a fetched one is then stored, and the error says which was missing |
| IdentityAnswers.IssueSucceedsExactly | identity/oauth/authorize_endpoint.py:18-46 | a code is issued if and only if its client stands and registered the redirect; it is stored unused under a new name with the grant and lifetime asked for, and a refusal stores no code |
| IdentityAnswers.IslandIsFirst | identity/store/memory.py:101-102 | the island of an audience is the first one registered for it |
| IdentityAnswers.LifetimeIsFirstIslands | identity/oauth/token_endpoint.py:6-13 | a refresh token given no lifetime lives as many days as the first island of its audience says, or 2592000 seconds |
| IdentityAnswers.StartSucceedsExactly | identity/federation/flow.py:16-35 | a login starts if and only if its client stands and registered the redirect and the first island of the audience is enabled; its transaction holds what was asked, the island and a new nonce |
| IdentityAnswers.StartErrors | identity/federation/flow.py:23-27 | a start fails for want of an island, or for a disabled one, exactly when the client may come back there and no island, or a disabled one, is first for the audience |
| IdentityAnswers.CompletionSucceedsExactly | identity/federation/flow.py:38-76 | a login is completed if and only if its transaction is known, unused and in time, its island registered and enabled, the answer an assertion with the island's issuer, this kernel as audience, the transaction's nonce and an expiry to come, and its client and redirect still stand |
| IdentityAnswers.CompletionErrors | identity/federation/flow.py:40-69 | which error each other completion gives |
| IdentityAnswers.EveryLoginWasVouchedFor | identity/federation/assertion.py:36-54 | over every run each federated code was issued on an assertion of its own island, for this kernel, in time, that echoed its own transaction's nonce and names the user it is for |
| IdentityAnswers.RedeemErrors | identity/oauth/token_endpoint.py:39-49 | which error each refused redemption gives |
| IdentityAnswers.FederatedCodeLivesTenMinutes | identity/oauth/authorize_endpoint.py:29-43 | whatever is done meanwhile, a login's code is refused as expired from 600 seconds after it was issued, and before that redeemed if and only if unused, with the login's PKCE proof and for its audience |
| IdentityAnswers.ExchangeSucceedsExactly | identity/exchange.py:8-20 | an exchange succeeds if and only if the hash is a long-lived token that is unrevoked, for this audience or any, and in time or without expiry, or is no long-lived token and an access token for this audience in time; and which error each refusal gives |
| IdentityAnswers.ExchangeAnswers | identity/exchange.py:22-32 | the answer carries the accepted row's principal and org, the roles of its active membership in a non-empty org and else none, the stored kind or human, and one of its links if it has any |
| OneUse.EveryRunLeavesAStart | identity/store/memory.py:67-131 | what any sequential run leaves is a state from which calls may start at once |
| OneUse.EachUsedAtMostOnce | identity/oauth/token_endpoint.py:38-60 | in every interleaving over the store calls a code yields at most one token pair and a transaction at most one code |
| OneUse.UsedOnlyByItsWinner | identity/oauth/token_endpoint.py:42-49 | a code used in the run was used by the one call that holds it, which presented it and passed expiry, audience and PKCE |
| OneUse.FailuresChangeNothing | identity/oauth/token_endpoint.py:39-47 | a redemption that ends unknown, expired, for another audience or without the PKCE proof changed nothing by any of its steps, whoever else was redeeming |
| Undisturbed.RedeemsAlone | identity/oauth/token_endpoint.py:38-60 | from any state, the store calls of a redemption nobody comes between leave the store and give the answer of the sequential kernel |
| Undisturbed.RefreshesAlone | identity/oauth/token_endpoint.py:63-88 | likewise a refresh, whatever the number of rows it scans |
| Undisturbed.CompletesAlone | identity/federation/flow.py:38-76 | likewise the completion of a login, for a known user or a new one |
| Undisturbed.EveryRunShows | identity/store/memory.py:67-131 | what any sequential run leaves is a state the three results above start from |
| LoginEcho.EveryCodeWasVouchedFor | identity/federation/flow.py:38-76 | in every interleaving a call that issued a login's code presented its transaction in time and got an assertion of the transaction's own enabled island, for this kernel, in time, that echoed the transaction's nonce |
| RefreshRace.AcceptedOnceExactlyWhenNoneOvertaken | identity/oauth/token_endpoint.py:63-88 | in every interleaving of redemptions, refreshes and logins, no refresh token is accepted twice if and only if no call stores a pair for a row it read before the rotation of a call that had accepted it; and a token is accepted twice exactly when a row is renewed twice |
| RefreshRace.TwoRefreshesBothAccepted | identity/oauth/token_endpoint.py:63-88 | two refreshes of one token at once can both be accepted, and the code is left with two live rows |
| FirstLogins.LoginsResolveExactlyWhenNoneOverwrites | identity/federation/principals.py:13-23 | in every interleaving each login's principal is still its user's if and only if no login stored a link over one stored since it looked |
| FirstLogins.EveryLinkStands | identity/federation/principals.py:17-22 | in every interleaving of the three puts, calls dying where they may, every link names a stored principal that is a member of the island's org |
| FirstLogins.TwoFirstLoginsSplitTheUser | identity/federation/principals.py:13-23 | two first logins of one user can leave one with a principal no link names |
| Base64Url.RepadRestores | identity/tokens.py:6-11 | padding by (-len mod 4) restores exactly what was stripped |
| Base64Url.RoundTrip | identity/tokens.py:6-11 | decoding undoes encoding for every byte string, and the text has no padding and no dot |
| Base64Url.Injective | identity/tokens.py:14-15 | two byte strings have the same text only if they are equal |
| Base64Url.LettersRun | identity/tokens.py:6-7 | the alphabet: A to Z, a to z, 0 to 9, minus, underscore, for 0 to 63 in that order |
| Base64Url.GroupIsSameBits | identity/tokens.py:6-7 | three bytes print as the four letters of their 24 bits, the most significant first |
| Base64Url.TailsAreSameBits | identity/tokens.py:6-7 | one or two bytes left over print as the letters of their bits with zeros after |
| SignedState.RoundTrip | vault/oauth_state.py:16-30 | a signed state verifies under its key to the payload signed |
| SignedState.AcceptsExactly | vault/oauth_state.py:22-30 | the tokens accepted are exactly a dot-free decodable body, a dot and the body's own signature |
| SignedState.RefusesExactly | vault/oauth_state.py:22-30 | a token is malformed if and only if it has no dot, and badly signed if and only if what follows the first dot is not the signature of what stands before it |
| SignedState.OtherKey | vault/oauth_state.py:22-30 | another key accepts a state exactly when it hashes the body to the same bytes |
| Envelope.FromBlob | vault/crypto.py:26-32 | the reading loop computes the parse of three length-prefixed parts |
| Envelope.RoundTrip | vault/crypto.py:22-32 | parsing undoes printing for all parts shorter than 2^32 bytes, whatever follows, and printing fails for no others |
| Envelope.HeaderIsBigEndian | vault/crypto.py:22-24 | the four bytes before a part are its length, the first the most significant |
| Envelope.PrintInjective | vault/crypto.py:22-24 | two envelopes print alike only if they are equal |
| Envelope.ReprintExactlyInBounds | vault/crypto.py:26-32 | a parsed envelope prints back the bytes consumed if and only if the parse stayed inside the blob |
| JwtCache.Transport.Bearer | libs/python/islands_vault/client.py:60-70 | a JWT returned, cached or new, lives 300 seconds from the issuer's reading and still verifies for skew minus one seconds (or the whole lifetime minus one, if shorter); a cached one is used exactly when more than the skew before its estimated expiry |
| JwtCache.MarginIsTight | identity/jwt_issuer.py:90-91 | no larger margin holds, whatever the skew: the second lost to truncation is really lost, for a JWT handed out at once or again from the cache |

## Left out

- Web routes, request parsing, start-up configuration, deployment scripts and the Node clients: input, output and configuration.
- Hashing, signing, sealing, PKCE's SHA-256, JSON and JWT encoding: arbitrary functions, with injectivity or a round trip assumed where a result needs it and stated in its `requires`.
- Raw tokens: a supply of names that never repeats; the randomness behind it is not modelled.
- Provider calls, HTTP delivery and island fetches: calls that succeed or raise. Handlers do not re-enter the bus, and routing to a handler is part of whether its call succeeds.
- Grant checking (`identity/authorize.py`, `vault/grants.py`): an arbitrary predicate of the clock reading, principal, org and event type.
- Floating-point rounding: times and delays are real numbers. Stores and processes share one clock that never goes back in the interleaved models; in one caller's model the clock is arbitrary.
- Row order of relational tables: listings follow insertion order, as the in-memory stores do.
- The relational identity and ledger stores apart from their leases: row mapping with the same operations.
- Deleting or importing a connection during a refresh: the backends differ there. A connection that vanishes between a caller's calls is covered by `Refresh` alone.
- Aliasing of stored records: a connection read is a snapshot, as in the file and relational stores, where the in-memory vault hands out the record itself.
- ExclusiveUnlessLiveSteal: assumes holders have different names; without that see SafeExactlyWhenUndisturbed.
- FileRefresh: `lease_held` is one step, with a choice for the lock that vanishes between its existence test and its read.
- Prints: deadlines are real numbers, of which a codec prints only some; each result asks it of the deadlines the run passes, and WholeDeadlinesPrint gives a codec that prints every whole second.
- DispatchMachine: replay, which rewrites rows outside the lease, is only in the sequential runs.
- RefreshAcceptedOnce: for sequential runs; interleaved it is false, see AcceptedOnceExactlyWhenNoneOvertaken.
- AcceptedOnceExactlyWhenNoneOvertaken: a caller presents only a refresh token that some call has returned, so a step that would present one earlier is not taken; lifetimes are given with the call, already resolved.
- EachUsedAtMostOnce: clients and islands are fixed while calls are under way.
- RefreshAlone.RefreshesAlone: no time passes while the caller moves; for arbitrary clock readings see CallsFollow. Over the lock file, FileAlone covers the lease calls alone.
- DispatchesAlone: the clock each attempt reads never goes back.
- FederatedExchange: islands and long-lived tokens are fixed during a run, audiences are strings, and names still to come hash to no long-lived token.
- CompleteFederation: the island's answer is one value; whether it was signed by a shared secret or a key set, and the redirect built from the code, are not modelled.
- Base64 decoding of characters outside the alphabet, and the error for comparing signatures with non-ASCII characters: decoding gives no result there in this model.
- The wording of errors, occurrence times and traces of events, and event type syntax: rejections are kept apart by kind only.
- Capture bridge, classification, metadata documents, contracts and access logs: nothing there constrains the state modelled here.
