# Safe Browse: a verified model

Safe Browse filters a child's web access. A cloud worker keeps households, children,
policies, devices and events in a SQL store and serves parents and devices; a Windows
agent enforces the policy locally, offline if it must, and syncs once a minute. This
project models the worker, the agent and the block-list compiler in Dafny and proves
what has to hold where they meet and in the exact algorithms below them.

Check everything with `dafny verify dfyconfig.toml`. Lemmas that Dafny would try by
induction on its own are marked `{:induction false}`: their proof is the one written down.

## How it is built

Protocols are step machines. A step is one SQL statement or batch, one message, or one
assignment of the agent; `Run` applies any sequence of steps, and a step that is not
enabled changes nothing, so a statement about all step sequences is a statement about
all interleavings. Code that works by changing things in place is modelled by classes
and loops (`ChildStore`, `EventQueue`, `RateLimitTable`, `ParentSession`, `ParentsTable`,
`EnrolmentTables`, `ListStore`, `AgentState.State`, `ProtectionWorker`, the Base32,
Base64, TOTP, DNS and feed loops); each method's contract ties the new state to a
specification function and says what changed in plain terms, and the properties are
proved about that function. Beside the safety properties stand laws of effect: what is
stored is what is shown, what is refused is refused for a stated reason only, and what a
parent does reaches the child.

| file | content |
|---|---|
| `PolicySync.dfy`, `PolicyTables.dfy` | policy writers, the sync handler and the agent, interleaved; one child's tables |
| `PolicyEvaluator.dfy`, `DomainNames.dfy`, `Approvals.dfy` | the filter's decision and its plain specification; expiry; the suffix walk; what a stored rule or an approval achieves |
| `EventUpload.dfy` | the bounded event queue, upload, retries, idempotency keys, stored rows |
| `Enrolment.dfy`, `EnrolmentCodes.dfy` | single-use codes and devices; drawing and reading codes |
| `RateLimit.dfy`, `Sessions.dfy`, `AccountLadder.dfy`, `Isolation.dfy` | clock-driven rows and whole runs of the auth and parent routes |
| `BlocklistFeed.dfy`, `ListInstall.dfy`, `AgentState.dfy` | feeds, compiled lists, signed installation, the agent's memory |
| `Base32.dfy`, `Base64Url.dfy`, `PasswordRecord.dfy`, `Totp.dfy`, `DnsMessage.dfy` | section 6 and section 5 of RFC 4648, stored passwords, section 5.3 of RFC 4226, sections 4.2 and 5.2 of RFC 6238, sections 3.1, 4.1.1 and 4.1.2 of RFC 1035 |
| `Common.dfy`, `BitStreams.dfy`, `Words.dfy` | strings, decimals, searches, code-unit order; bits; 32-bit words |

Hash functions, HMAC, PBKDF2, ECDSA, gzip, JSON, the URL host parser and the time-zone
table are arbitrary functions, gzip with an inverse. Random ids, tokens and keys are
inputs that do not repeat; among them are the event ids that devices draw (what a reused
one does is `ReusedEventId`). Names and codes are ASCII. Times are integers.

## Where the code differs from its documentation

- `docs/architecture.md:59` says that a sync answers 304 if the policy has not changed.
  The code compares version numbers (`apps/worker/src/routes/device.ts:84-86`). That is
  sound as long as nothing that policies show has changed since the last bump
  (`SyncAgreement`); a handler between its change and its bump breaks it, and one that dies
  there leaves it broken until any other handler bumps (`CrashLeavesStale`, `StaleExactly`,
  `BumpHeals`).
- `apps/worker/src/crypto.ts:36` says that enrolment codes use no L and no U. The
  alphabet has both; the model follows the alphabet.
- The wait that a locked client is told can be one second short: exactly when the rest
  of the window is a positive whole number of seconds (`RetryAfterExact`).
- Approving a request does not always unblock it: policies list rules by domain and the
  agent takes the first that fits, so a block of a parent domain that sorts before the
  requested name stays in force (`ApprovalEffect` gives the exact condition,
  `BlockedParent` and `AlphabetMatters` the plainest case).
- The two domain normalisers part on trailing dots: they agree exactly up to one dot
  (`TrailingDotsAgree`).
- A manifest with two different lists whose file names differ in case only installs
  without complaint, sets the version marker, and leaves one of the two lists missing,
  because the agent's file system ignores case (`CaseTwins` is that run, `ListStore.Sync`
  says exactly when all entries are installed). One name listed with two hashes is refused
  (`OneNameOneHash`).
- A feed line that ends in a carriage return and no line feed keeps its comment, so
  appending a feed to it can add a domain of its own (`CommentKept`, `FeedConcat`,
  `CarriageReturnMatters`).
- Events are unique by an id that the device chooses, across all households. A device that
  repeats the id of another household's event is told that its event was accepted, and the
  event is not stored (`ReusedEventId`). Only this order does harm (`HouseholdIsolation`
  holds for every run that is `Regular`).

## Model

| member | source | states |
|---|---|---|
| PolicySync.StepEvolves | apps/worker/src/routes/parent.ts:80-171 | no step of any handler, job or agent takes the version or the clock back, and none changes what policies show while the version stands still and nothing has changed since the last bump |
| PolicySync.StepKeepsInv | apps/worker/src/policy.ts:20-60 | every step keeps the seqlock invariant: each policy held, in flight or being assembled is the server's whenever its version is current and nothing has changed since the last bump |
| PolicySync.SyncAgreement | apps/worker/src/routes/device.ts:79-89 | in every reachable state in which nothing shown has changed since the last bump, whatever crashed before, equal versions mean equal policies up to expired rules, and equal decisions for every name |
| PolicySync.NotModifiedIsHarmless | apps/worker/src/routes/device.ts:84-86 | a 304 only ever withholds a policy with the version and list version the agent holds, and with its content unless that has changed since the last bump |
| PolicySync.VersionsMonotone | apps/worker/src/policy.ts:70-72 | versions never go back over any run, and the agent never holds a version ahead of the server's |
| PolicySync.QuietSyncConverges | apps/windows/src/SafeBrowse.Service/ProtectionWorker.cs:37-62 | from every reachable state, one undisturbed sync brings an idle agent to the server's version and list version, and to its policy unless content has changed since the last bump |
| PolicySync.CrashLeavesStale | apps/worker/src/routes/parent.ts:106-109 | for every handler that writes and bumps in two statements (preset, schedules, rules): if it dies in between, the agent has the right version, and it has the right content if and only if the change was invisible |
| PolicySync.StaleExactly | apps/worker/src/routes/device.ts:84-86 | over every run that leaves the version and the agent's policy alone, an agent that was up to date is up to date if and only if policies show what they showed then |
| PolicySync.BumpHeals | apps/worker/src/policy.ts:70-72 | whatever crashed before, after any handler's bump and until content changes again an agent at the server's version has its content, and one undisturbed sync gets it there |
| PolicySync.AddedScheduleShows | apps/worker/src/routes/parent.ts:135-137 | a new schedule is never an invisible change |
| PolicySync.UpdateReachesAgent | apps/worker/src/routes/parent.ts:80-98 | from every reachable state, after a policy update and one undisturbed sync the agent has its settings and enables exactly the chosen categories and threats |
| PolicySync.RuleReachesAgent | apps/worker/src/routes/parent.ts:149-163 | likewise an added rule that lives is among the agent's rules |
| PolicySync.RemovalReachesAgent | apps/worker/src/routes/parent.ts:165-171 | and a removed one is not, unless another row has the same rule |
| PolicySync.SchedulesReachAgent | apps/worker/src/routes/parent.ts:128-147 | an added schedule is among the agent's schedules, once more than before, and after a removal they are those of the other rows |
| PolicySync.ResetReachesAgent | apps/worker/src/routes/parent.ts:100-111 | after a reset the agent enables exactly the stored categories that are in the preset of the age band |
| PolicySync.ListReachesAgent | apps/worker/src/policy.ts:62-68 | a published list version is the agent's after one undisturbed sync |
| PolicySync.AccessAskedAndResolved | apps/worker/src/routes/parent.ts:202-227 | a request waits as pending, and resolving it records the answer, adds the allow rule unless it is denied, and bumps |
| PolicySync.PurgeDeletes | apps/worker/src/scheduled.ts:12-14 | the nightly step deletes exactly the expired rules and the requests of more than 30 days ago |
| PolicySync.RestartNeverOlder | apps/windows/src/SafeBrowse.Service/ProtectionWorker.cs:37-62 | in every run the policy on disk is at least as new as the one in use, so a restart never takes the agent back |
| PolicySync.AgentRecovers | apps/windows/src/SafeBrowse.Service/ProtectionWorker.cs:25-29 | after a lost answer or an abandoned update the agent can sync again, and a restart uses what was saved |
| PolicySync.ResolutionIsFinal | apps/worker/src/routes/parent.ts:202-227 | a resolved request keeps its answer however resolves interleave, until retention deletes it, and then it stays gone |
| PolicySync.RulesStayOrdered | apps/worker/migrations/0001_initial.sql:53 | in every run there is one rule per domain, in the order that policies list them |
| PolicyTables.UpsertAscending | apps/worker/src/routes/parent.ts:157-160 | an upsert keeps domains unique and ordered |
| PolicyTables.UpsertDomains | apps/worker/src/routes/parent.ts:157-160 | an upsert adds exactly its own domain |
| PolicyTables.UpsertRows | apps/worker/src/routes/parent.ts:157-160 | the row of the domain gets the new rule under its old id, and every other row stays |
| PolicyTables.EnabledExact | apps/worker/src/policy.ts:29 | policies list exactly the categories whose row is enabled |
| PolicyTables.EnabledRanked | apps/worker/src/policy.ts:29 | each once, in the order of the names |
| PolicyTables.RankIsAlphabetical | apps/worker/src/policy.ts:29 | the order of the model is the alphabetical order of the names |
| PolicyTables.SchedulesExact | apps/worker/src/policy.ts:31-34 | policies list every stored schedule as often as it is stored, ordered by category and start |
| PolicyTables.PresetsNest | packages/contracts/src/index.ts:15-20 | every preset has the six safety categories, a younger band all that an older one has, the youngest everything |
| PolicyTables.ChildStore.RemoveRule | apps/worker/src/routes/parent.ts:165-171 | exactly the row with the id goes, one bump |
| PolicyTables.ChildStore.RemoveSchedule | apps/worker/src/routes/parent.ts:141-147 | exactly the row with the id goes, one bump |
| PolicyTables.ChildStore.UpdatePolicy | apps/worker/src/routes/parent.ts:80-98 | the new settings, a row for every category that is enabled exactly if it was chosen or is threats, one bump, and nothing else |
| PolicyTables.ChildStore.ResetPreset | apps/worker/src/routes/parent.ts:100-111 | the whole new state of a reset: existing category rows follow the preset of the age band, absent rows stay absent, one bump |
| PolicyTables.ChildStore.AddRule | apps/worker/src/routes/parent.ts:149-163 | the whole new state, with uniqueness and order of the rules kept |
| PolicyTables.ChildStore.ResolveRequest | apps/worker/src/routes/parent.ts:202-227 | status codes for missing and resolved requests; otherwise the request alone becomes denied or approved, a denial leaves the rules, and one bump |
| PolicyTables.ChildStore.PurgeExpired | apps/worker/src/scheduled.ts:12-14 | exactly the rules that have not expired and the requests of the last 30 days survive, and every policy built from then on is the one that would have been built without the job |
| PolicyTables.ChildStore.BuildPolicy | apps/worker/src/policy.ts:20-60 | every setting of the child in its own place, exactly the enabled categories in order, all schedules in order, exactly the rules that have not expired |
| PolicyEvaluator.DecideIsSpec | apps/windows/src/SafeBrowse.Core/PolicyEvaluator.cs:23-46 | a result is the filter's decision if and only if it is the plain specification's: pause, then the first live rule equal to or a parent of the name, then the first enabled category that lists it outside its windows, else allow |
| PolicyEvaluator.EvaluateIsSpec | apps/windows/src/SafeBrowse.Core/PolicyEvaluator.cs:23-46 | the same for raw input, with the exception for malformed names |
| PolicyEvaluator.DecisionUnique | apps/windows/src/SafeBrowse.Core/PolicyEvaluator.cs:28-45 | the specification allows one result |
| PolicyEvaluator.WindowLaw | apps/windows/src/SafeBrowse.Core/PolicyEvaluator.cs:48-60 | with one enabled category that lists the name and one schedule, the name is blocked exactly on other days, before the start, and from the end on |
| PolicyEvaluator.RuleSearch | apps/windows/src/SafeBrowse.Core/PolicyEvaluator.cs:28-35 | searching the filtered rules finds the first decisive rule of the policy |
| PolicyEvaluator.HitIsListed | apps/windows/src/SafeBrowse.Core/PolicyEvaluator.cs:41 | hash lookups along the suffix walk succeed exactly when some entry is the name or a parent of it |
| RuleExpiry.ExpiryFiltersAgree | apps/worker/src/policy.ts:35-38 | dropping expired rules when the policy is built, or purging them at night, changes no decision at any later instant |
| RuleExpiry.LiveAgreementSuffices | apps/worker/src/policy.ts:35-38 | policies that agree on their live rules decide alike |
| RuleExpiry.TimedGrantEnds | apps/windows/src/SafeBrowse.Core/PolicyEvaluator.cs:28-31 | a timed grant has no effect from its expiry on, on an agent that never syncs again |
| Approvals.ApprovalEffect | apps/worker/src/routes/parent.ts:202-227 | until a grant ends, the approved name is allowed if and only if the child is not paused and no live rule for a parent domain that sorts before the name blocks it |
| Approvals.StoredAllowance | apps/worker/src/policy.ts:35-38 | the same for any allow rule that is stored, at every instant while it lives |
| Approvals.FirstAfterUpsert | apps/windows/src/SafeBrowse.Core/PolicyEvaluator.cs:28-31 | after an upsert the stored rule is the first for its own domain unless one before it is |
| Approvals.BlockedParent | apps/windows/src/SafeBrowse.Core/PolicyEvaluator.cs:28-31 | if the first live rule for the requested name is a block, of the name or a parent, the approved name is allowed exactly when the child is not paused and the blocked domain does not sort before the name |
| Approvals.LoneBlock | apps/worker/src/routes/parent.ts:202-227 | the same for a child with one lasting block |
| Approvals.AlphabetMatters | apps/worker/src/policy.ts:35-38 | every canonical domain of at most 251 characters that starts with a letter between a and z has canonical subdomains on both sides of that order |
| Approvals.SubdomainsDiffer | apps/worker/src/routes/parent.ts:202-227 | for every such domain under one lasting block, approving the subdomain "a." allows it and approving the subdomain "z." does not |
| Approvals.GrantWindow | apps/worker/src/routes/parent.ts:216-217 | ten minutes, an hour, or to the end of the UTC day but at least a minute; no timed grant lasts a day |
| DomainNames.SuffixesExact | apps/windows/src/SafeBrowse.Core/DomainNormalizer.cs:19-29 | the walk enumerates exactly the name and its parents at label boundaries |
| DomainNames.SuffixesAreLabels | apps/windows/src/SafeBrowse.Core/DomainNormalizer.cs:19-29 | the i-th suffix is the name without its first i labels |
| DomainNames.Suffixes | apps/windows/src/SafeBrowse.Core/DomainNormalizer.cs:19-29 | the loop terminates for every input and yields the walk of the normalised name, or the exception |
| DomainNames.NormalizeIdempotent | apps/windows/src/SafeBrowse.Core/DomainNormalizer.cs:9-17 | normal forms are fixed |
| DomainNames.AcceptedNames | apps/windows/src/SafeBrowse.Core/DomainNormalizer.cs:9-17 | which names are accepted, by length, labels and characters |
| EventQueues.EventQueue.Add | apps/windows/src/SafeBrowse.Service/EventQueue.cs:14 | the queue keeps the newest 50,000 of what it had and the new event |
| EventQueues.EventQueue.Remove | apps/windows/src/SafeBrowse.Service/EventQueue.cs:16 | removing more than there is empties the queue and is no error |
| EventQueues.EventQueue.Upload | apps/windows/src/SafeBrowse.Service/ProtectionWorker.cs:85-91 | a batch leaves the queue if and only if it was accepted |
| EventQueues.AccessRequestQueue.Upload | apps/windows/src/SafeBrowse.Service/ProtectionWorker.cs:76-84 | access requests leave in order up to the first refusal, which stays at the head |
| EventUpload.StoredOnce | apps/worker/src/routes/device.ts:106-129 | in every run, with requests delayed, repeated, lost and retried under fresh keys, each event id is stored at most once at any moment, as it was added but for its domain, which the server normalises again or leaves out |
| EventUpload.StoredOnceUntilPurge | apps/worker/src/routes/device.ts:120-123 | a stored row stays as it is, and its id is not stored again, until retention deletes it |
| EventUpload.PlainEventsUnchanged | apps/worker/src/routes/device.ts:115-119 | events about canonical domains are stored exactly as they were added |
| EventUpload.Conservation | apps/windows/src/SafeBrowse.Service/ProtectionWorker.cs:85-91 | in every run the events that are neither queued nor were ever stored number at most the overflow drops, also when the queue overflows during an upload |
| EventUpload.NothingLostBelowCapacity | apps/windows/src/SafeBrowse.Service/EventQueue.cs:14 | until more events were added than fit, nothing is lost whatever the network does |
| EventUpload.QueueBounded | apps/windows/src/SafeBrowse.Service/EventQueue.cs:14 | the queue exceeds its capacity by no more than the adders that have not finished |
| EventUpload.DeliverAccount | apps/windows/src/SafeBrowse.Service/ProtectionWorker.cs:90 | when an upload succeeds, each drop from its batch pays for one removal that will miss the batch |
| EventUpload.QuietUploadStores | apps/windows/src/SafeBrowse.Service/ProtectionWorker.cs:85-91 | an undisturbed upload moves the first hundred events from the queue to the table |
| EventUpload.AddAlone | apps/windows/src/SafeBrowse.Service/EventQueue.cs:14 | the machine's adder, undisturbed, is the queue's Add |
| EventUpload.InsertDistinct | apps/worker/src/routes/device.ts:120-123 | INSERT OR IGNORE keeps ids unique and leaves every id of the batch in the table |
| EventUpload.RepeatIsDuplicate | apps/worker/src/routes/device.ts:106-129 | a stored request that arrives again is answered as done and stores nothing more |
| EventUpload.RaceIsRolledBack | apps/worker/src/routes/device.ts:124-125 | of two copies that both missed the key, the second is rolled back whole |
| EventUpload.LateRepeatAddsNothing | apps/worker/src/scheduled.ts:15 | a repeat after its key was purged adds no row for an event that is still stored |
| EventUpload.RefusedUploadKeeps | apps/windows/src/SafeBrowse.Service/ProtectionWorker.cs:85-91 | a refused upload leaves the queue and the table as they are |
| Enrolment.EnrolmentSafety | apps/worker/src/routes/device.ts:34-70 | in every interleaving of enrol, revoke, crash and purge a child has at most one active device, a code made at most one device, it belongs to the code's child, and its handler found the code less than a day after it was issued |
| Enrolment.ExpiredCodeRefused | apps/worker/src/routes/device.ts:34-38 | in every run a code admits nobody from a day after it was issued |
| Enrolment.CodeLasts | apps/worker/src/scheduled.ts:13 | until then, and until it is used, a code stays usable through all steps, the nightly job included |
| Enrolment.RevokedForever | apps/worker/src/routes/parent.ts:229-237 | a revoked device never becomes active again, and no device changes its child |
| Enrolment.ReplacedForever | apps/worker/src/auth.ts:85-97 | once another device of the child is active, the earlier credential is refused for good |
| Enrolment.QuietEnrolment | apps/worker/src/routes/device.ts:34-70 | a handler with a usable code, undisturbed, enrols its device and spends the code |
| Enrolment.EnrolmentTables.Enrol | apps/worker/src/routes/device.ts:34-70 | accepted exactly when the code is there, unused and before its expiry; it is then spent, and the active devices are the new one and those of other children |
| Enrolment.EnrolmentTables.RevokeDevice | apps/worker/src/routes/parent.ts:229-237 | found exactly for a device of a child of the household, which alone is revoked |
| EnrolmentCodes.ShownCodeReadsBack | apps/worker/src/crypto.ts:43-70 | every generated code, as shown or typed in lower case, normalises to the drawn symbols and is valid |
| EnrolmentCodes.GenerateEnrolmentCode | apps/worker/src/crypto.ts:43-70 | the loop's code is valid and normalises to the drawn symbols |
| EnrolmentCodes.NormalizeTwice | apps/worker/src/routes/device.ts:27-28 | normalising in the schema and again in the route is normalising once |
| EnrolmentCodes.ValidExactly | apps/worker/src/crypto.ts:47-58 | valid are twelve symbols of the alphabet, or six digits |
| EnrolmentCodes.NormalizeIsPlainUpper | packages/contracts/src/index.ts:68-78 | white space and separators anywhere in a typed code do not matter |
| EnrolmentCodes.UnbiasedSymbols | apps/worker/src/crypto.ts:63-70 | every symbol of a code comes from exactly 8 of the 256 bytes |
| EnrolmentCodes.UnbiasedSixDigits | apps/worker/src/crypto.ts:24-33 | after rejection every six-digit code comes from exactly 4294 words |
| EnrolmentCodes.SixDigitCode | apps/worker/src/crypto.ts:24-33 | six digits that spell the remainder of the first word that is not rejected |
| RateLimit.SlidingBound | apps/worker/src/rate-limit.ts:73-106 | while a bucket is not cleared, no span of windowMs holds more than 2 * maxAttempts - 1 recorded failures and no fixed window more than maxAttempts, with purges and other buckets interleaved |
| RateLimit.LockedOut | apps/worker/src/rate-limit.ts:62-65 | a locked bucket refuses everything up to and including the end of its window, and nothing changes it before |
| RateLimit.LockEnds | apps/worker/src/rate-limit.ts:58-65 | over every run of requests and purges within the window, a locked bucket refuses its next request exactly up to the end of the window, and the first one after it finds all attempts free |
| RateLimit.RetryAfterExact | apps/worker/src/rate-limit.ts:63 | coming back after the announced wait is admitted if and only if the rest of the window was zero or not whole seconds; one second later always, one earlier never |
| RateLimit.InvisiblePurge | apps/worker/src/scheduled.ts:8-16 | deleting rows not updated for a day changes nothing that any client of any action is ever told |
| RateLimit.KeysApart | apps/worker/src/rate-limit.ts:38-40 | buckets of different actions or addresses are different |
| RateLimit.FailureAnswer | apps/worker/src/rate-limit.ts:101-105 | what a client is told after a failure is what the next check of the bucket would tell it |
| RateLimit.RemainingExact | apps/worker/src/rate-limit.ts:69 | the announced remainder is exactly the number of further failures that lock the bucket |
| RateLimit.SuccessStartsOver | apps/worker/src/rate-limit.ts:109-116 | an admitted success gives all attempts back, and no request touches another bucket |
| RateLimit.ConfiguredLimits | apps/worker/src/rate-limit.ts:19-28 | the attempts and windows of the actions |
| RateLimit.RateLimitTable.Check | apps/worker/src/rate-limit.ts:45-70 | the answer of the row's specification, in the source's branches |
| RateLimit.RateLimitTable.RecordFailure | apps/worker/src/rate-limit.ts:73-106 | the whole new table, and the answer that a check of it at the same instant gives |
| RateLimit.RateLimitTable.Purge | apps/worker/src/scheduled.ts:16 | exactly the rows not updated for a day go |
| RateLimit.RateLimitTable.Serve | apps/worker/src/routes/auth.ts:572-605 | a guarded request checks, then counts a failure at a later reading of the clock or clears the bucket, and does neither when refused |
| Sessions.SessionLifetime | apps/worker/src/session.ts:62-88 | over any requests after a login: nothing admitted from 30 days on or after 7 idle days; the stored last use lags the true one by less than an hour; before the cap, a session idle for at most 7 days less 1 hour is admitted |
| Sessions.RejectedStaysRejected | apps/worker/src/auth.ts:31-43 | a token rejected once is rejected ever after, whatever the row held and whoever logs in |
| Sessions.UndatedSessionRejected | apps/worker/src/session.ts:62-67 | a row from before the expiry columns, or with malformed dates, admits its token at no point of any run in which the token is not issued again |
| Sessions.LoggedOutForGood | apps/worker/src/session.ts:93-101 | a session that is logged out is never admitted again, and logging out with another token changes nothing |
| Sessions.ParentSession.Authenticate | apps/worker/src/auth.ts:17-43 | admits exactly live sessions, slides the window at most hourly, drops dead ones |
| Sessions.ParentSession.Issue | apps/worker/src/session.ts:40-48 | an issued session admits its token, and no other, for seven days even if unused |
| Sessions.ParentSession.Require | apps/worker/src/routes/auth.ts:91-120 | the set-up routes admit exactly what the console would |
| AccountLadder.BothRungsStay | apps/worker/src/routes/auth.ts:182-254 | over all runs of the auth routes a session implies a PIN, and a row with PIN and authenticator keeps both, the secret unchanged |
| AccountLadder.ConsoleNeedsBoth | apps/worker/src/auth.ts:71-79 | every console request admitted by its bearer token comes from a row with PIN and authenticator |
| AccountLadder.OneToken | apps/worker/src/routes/auth.ts:182-190 | over all runs a parent has at most one valid token and a token at most one parent |
| AccountLadder.TakeoverNeedsCredential | apps/worker/src/routes/auth.ts:411-669 | as long as nobody presents a PIN that verifies, its recovery key or an accepted authenticator code, a finished account keeps its credentials and gains no new session |
| AccountLadder.SetPinLogsIn | apps/worker/src/routes/auth.ts:572-605 | after a sign-up or recovery, and until another credential is presented, a login gets a session if and only if its PIN verifies against the record stored then |
| AccountLadder.LadderCanBeClimbed | apps/worker/src/auth.ts:17-79 | a new account reaches the console after linking an authenticator, and not before |
| AccountLadder.ConsoleStaysOpen | apps/worker/src/auth.ts:17-43 | an admitted console request keeps every credential, and the next one within a week less an hour, and before the cap, is admitted too |
| AccountLadder.SignedOutForGood | apps/worker/src/routes/auth.ts:671-680 | over all runs a signed-out token opens nothing again, and its row keeps its credentials |
| AccountLadder.ParentsTable.Login | apps/worker/src/routes/auth.ts:572-605 | a session exactly when the PIN verifies against the row's record, with the upgraded record if there is one, and nothing else changes |
| AccountLadder.ParentsTable.Provision | apps/worker/src/routes/auth.ts:194-254 | taken exactly when the row has a PIN; otherwise the whole new table |
| AccountLadder.ParentsTable.RecoverWithCode | apps/worker/src/routes/auth.ts:427-458 | session and new PIN together exactly when the code matches, from two statements |
| AccountLadder.ParentsTable.RecoverWithKey | apps/worker/src/routes/auth.ts:622-669 | session, new PIN and new recovery key together exactly when the key matches; the authenticator and every other row stay |
| AccountLadder.ParentsTable.SetUpFamily | apps/worker/src/routes/auth.ts:510-552 | nothing while some row has a PIN; otherwise the family account becomes the only row with one, signed in |
| AccountLadder.ParentsTable.Confirm | apps/worker/src/routes/auth.ts:385-408 | an authenticator is linked exactly for a live session without one and an accepted code |
| Isolation.HouseholdIsolation | apps/worker/src/routes/parent.ts:24-243 | taking other households' parent steps, or all their steps, out of any interleaved run changes neither one household's rows nor any answer to its parents and devices: lists, policies, enrolment, sync, access requests and their status; strangers may even reuse event ids, but for two cases: an id of the household before its own event is stored, and, by the household itself, an id of theirs |
| Isolation.OwnIdsAreRegular | apps/worker/src/routes/device.ts:120-123 | the proviso holds for everybody if every device draws its own event ids |
| Isolation.ReusedEventId | apps/worker/src/routes/device.ts:120-123 | the proviso is needed: if another household's device posts an id first, a household's own event under it is accepted and never listed |
| Isolation.OwnershipIsStable | apps/worker/src/routes/device.ts:131-146 | over all runs every schedule, rule, code, device, event and request row carries the household of its child |
| Isolation.StrangerStep | apps/worker/src/routes/parent.ts:239-243 | no statement of a handler changes a row of another household, though only the first one checks |
| Isolation.OwnStep | apps/worker/src/routes/device.ts:79-162 | every step's effect and answer, of a parent or a device, depend on the household's own rows only |
| Isolation.ListedChildren | apps/worker/src/routes/parent.ts:24-34 | exactly the household's children and their active devices |
| Isolation.ListedEvents | apps/worker/src/routes/parent.ts:173-188 | exactly the household's events, of the named child if there is one |
| Isolation.ListedRequests | apps/worker/src/routes/parent.ts:190-199 | exactly the household's requests |
| Isolation.PolicyExact | apps/worker/src/routes/parent.ts:58-69 | a policy has exactly the schedules and rules of the child |
| Isolation.ForeignChildNotFound | apps/worker/src/routes/parent.ts:239-243 | every writing request about another household's child is answered with not found and does nothing |
| Isolation.PolicyUpdated | apps/worker/src/routes/parent.ts:80-98 | an own update writes what it says and nothing else |
| Isolation.RequestResolved | apps/worker/src/routes/parent.ts:202-227 | resolving an own request records the answer, the rule of an approval and one bump; a second attempt comes too late |
| Isolation.DeviceRevoked | apps/worker/src/routes/parent.ts:229-237 | a revoked device is refused at every route |
| Isolation.DeviceEnrolled | apps/worker/src/routes/device.ts:34-75 | a code enrols one device, which replaces the child's others and is sent the child's policy; a second try is refused |
| Isolation.SyncedPolicy | apps/worker/src/routes/device.ts:79-89 | a device is sent its own child's policy, or not modified exactly for the current version and list |
| Isolation.AccessAsked | apps/worker/src/routes/device.ts:131-157 | a first request is stored as pending, and while it is, further ones name it and store nothing |
| Base32.RoundTrip | apps/worker/src/totp.ts:10-44 | decoding the encoding of any bytes returns them (section 6 of RFC 4648 without padding) |
| Base32.Encode | apps/worker/src/totp.ts:10-26 | n bytes take ceil(8n/5) characters |
| Base32.EncodeInjective | apps/worker/src/totp.ts:10-26 | different secrets are spelt differently |
| Base32.DecodeTolerant | apps/worker/src/totp.ts:28-44 | lower case, padding and foreign characters do not matter |
| Words.WindowByteIn | apps/worker/src/totp.ts:15 | shifting a byte into a 32-bit word keeps every bit that is still to be written, although the word overflows |
| Words.WindowDigitIn | apps/worker/src/totp.ts:36 | the same for a five-bit digit |
| Words.WindowRight | apps/worker/src/totp.ts:18 | `value >>> k` brings down exactly the bits above the k low ones |
| Words.WindowLeft | apps/worker/src/totp.ts:23 | `value << k` completes the pending bits with k zeros |
| Base32.Base32Encode | apps/worker/src/totp.ts:10-26 | the accumulator loop computes the encoding |
| Base32.AlphabetLookup | apps/worker/src/totp.ts:8 | the letter arithmetic of the model is indexing and searching the alphabet string |
| Base32.Base32Decode | apps/worker/src/totp.ts:28-44 | the accumulator loop computes the decoding |
| Base64Url.UrlRoundTrip | apps/worker/src/crypto.ts:1-13 | URL-safe Base64 read back is the bytes, through the padding arithmetic |
| Base64Url.UrlText | apps/worker/src/crypto.ts:1-5 | the text has letters, digits, hyphen and underscore only |
| Base64Url.AgentReadsUrlText | apps/windows/src/SafeBrowse.Service/ListArtifactStore.cs:19-20 | the agent's padding and decoder read the compiler's URL-safe text |
| Base64Url.BytesToBase64Url | apps/worker/src/crypto.ts:1-5 | the loop computes the text |
| Base64Url.Base64UrlToBytes | apps/worker/src/crypto.ts:7-13 | the loop computes the bytes, or the exception |
| PasswordRecord.OwnRecord | apps/worker/src/crypto.ts:111-143 | every password verifies against its own stored record and asks for no rehash |
| PasswordRecord.VerifyRecord | apps/worker/src/crypto.ts:124-143 | a password verifies exactly when it derives the stored key |
| PasswordRecord.OtherPassword | apps/worker/src/crypto.ts:124-143 | another password verifies only if it derives the same key |
| PasswordRecord.RehashOnce | apps/worker/src/crypto.ts:117-149 | after the upgrade on login the new record verifies and asks for none |
| PasswordRecord.WeakRecordRefused | apps/worker/src/crypto.ts:137 | fewer than 10,000 iterations are refused even with the right password |
| PasswordRecord.LegacyRecord | apps/worker/src/crypto.ts:145-148 | a record without the prefix is compared as a salted digest and asks for the upgrade when it fits |
| PasswordRecord.NoRecordRefused | apps/worker/src/crypto.ts:128 | no record, no login |
| PasswordRecord.TimingSafeEqual | apps/worker/src/crypto.ts:82-87 | the XOR-accumulating comparison is equality |
| Totp.VerifyTotp | apps/worker/src/totp.ts:94-103 | accepted exactly when the cleaned code is six digits that spell the HOTP value of step floor(t/30 s) - 1, + 0 or + 1 |
| Totp.TruncationIsHotp | apps/worker/src/totp.ts:80-86 | the worker's masks, shifts and ors on 32-bit words are dynamic truncation of section 5.3 of RFC 4226, for every 20-byte MAC and without reading past it |
| Totp.SixDigits | apps/worker/src/totp.ts:76-88 | a computed code is six digits that spell the HOTP value |
| Totp.CounterExact | apps/worker/src/totp.ts:64-73 | the eight bytes are the big-endian value of every counter below 2^64 |
| Totp.CounterToBytes | apps/worker/src/totp.ts:64-73 | the buffer filled backwards holds these bytes |
| Totp.DriftTolerance | apps/worker/src/totp.ts:94-103 | a code is accepted at every moment within 30 s of when it was shown |
| Totp.SpacedCode | apps/worker/src/totp.ts:94-97 | a space between the digits does not matter |
| Totp.SecretRoundTrip | apps/worker/src/totp.ts:47-51 | the key used is the one that was generated and shown in Base32 |
| SortedLists.AscendingUnique | tools/blocklists/src/compiler.ts:18 | a set has one strictly ascending enumeration |
| SortedLists.SortSet | tools/blocklists/src/compiler.ts:18 | whatever order the set is taken in, the sorted list is that enumeration |
| ContractDomains.AgentKeepsDomain | packages/contracts/src/index.ts:102-112 | what the worker accepts as a domain, the agent's normaliser leaves unchanged |
| ContractDomains.NormalizersAgree | packages/contracts/src/index.ts:102-112 | on canonical names that the URL parser keeps, both normalisers give the name |
| ContractDomains.TrailingDotsAgree | packages/contracts/src/index.ts:102-112 | for every canonical name and n trailing dots, over a host parser that keeps them, the two normalisers agree if and only if n is at most one; beyond, one drops all dots and the other refuses |
| ContractDomains.PathRefused | packages/contracts/src/index.ts:104 | a path or a port is refused whatever the URL parser would say |
| BlocklistFeed.FeedConcat | tools/blocklists/src/compiler.ts:9-19 | for all a and b the feed a, line feed, b has the domains of b and of a without a final carriage return |
| BlocklistFeed.CommentKept | tools/blocklists/src/compiler.ts:12 | a line that ends in a carriage return keeps its comment |
| BlocklistFeed.CarriageReturnMatters | tools/blocklists/src/compiler.ts:9-19 | so for every host word and comment, such a feed yields nothing alone and the host once another feed is appended: concatenation is not the union there |
| BlocklistFeed.ParseDomains | tools/blocklists/src/compiler.ts:9-19 | the strictly ascending list of exactly the lines' domains |
| BlocklistFeed.HostsLine | tools/blocklists/src/compiler.ts:14 | an address, a space and a listable name list the name |
| BlocklistFeed.FilterLine | tools/blocklists/src/compiler.ts:14 | two bars, a name, a caret and options list the name |
| BlocklistFeed.StarLine | tools/blocklists/src/compiler.ts:16 | a wildcard lists the name below it |
| BlocklistFeed.MarkedLine | tools/blocklists/src/compiler.ts:13 | comments, exceptions and section heads list nothing, whatever follows |
| BlocklistFeed.LocalLine | tools/blocklists/src/compiler.ts:15 | names of the local network are skipped |
| BlocklistFeed.CompileSources | tools/blocklists/src/compiler.ts:21-53 | fetches, bounds and groups the sources and lists one artifact per category with exactly its sources' domains, or stops at the first source that cannot be read, is too large, or has too few or too many domains |
| BlocklistFeed.ArtifactsExact | tools/blocklists/src/compiler.ts:32-36 | there is an artifact for exactly the categories that have a source, with the category's domains and their number |
| BlocklistFeed.ArtifactsOrdered | tools/blocklists/src/compiler.ts:36 | the artifacts come in strictly ascending order of category |
| BlocklistFeed.SourceOrder | tools/blocklists/src/compiler.ts:32-36 | neither order nor repetition of sources changes the compiled lists, or whether there are any |
| BlocklistFeed.CompiledFrom | tools/blocklists/src/compiler.ts:33 | a domain is compiled exactly when some source of the category has it |
| BlocklistFeed.FitsExactly | tools/blocklists/src/compiler.ts:24-28 | which sources are compiled: answered, within the size limit, and between the bounds |
| BlocklistFeed.LoadArtifact | apps/windows/src/SafeBrowse.Service/PolicyStore.cs:37-41 | reading the written text line by line gives exactly the compiled domains |
| BlocklistFeed.LoadedLine | apps/windows/src/SafeBrowse.Service/PolicyStore.cs:37-41 | a line counts trimmed and without case unless it is blank or a comment |
| BlocklistFeed.LoadLists | apps/windows/src/SafeBrowse.Service/PolicyStore.cs:27-45 | one set for each file that exists |
| FeedPipeline.LoadedIsCompiled | apps/windows/src/SafeBrowse.Service/PolicyStore.cs:27-45 | loading the written artifacts yields exactly the compiled sets |
| FeedPipeline.PipelineMeaning | apps/windows/src/SafeBrowse.Core/PolicyEvaluator.cs:39-41 | the filter finds a name in a category exactly when some feed of it has the name or a parent of it, for every parser that yields host names |
| FeedPipeline.FeedMeaning | tools/blocklists/src/compiler.ts:9-37 | the same for the compiler's own parser over any URL host parser |
| FeedPipeline.FeedsYieldHosts | tools/blocklists/src/compiler.ts:9-19 | that parser yields canonical host names only |
| FeedPipeline.SyncedRulesNeverRaise | apps/windows/src/SafeBrowse.Core/PolicyEvaluator.cs:31 | with rules that the worker stored, the filter never throws on a well-formed name |
| ListInstall.ListStore.Sync | apps/windows/src/SafeBrowse.Service/ListArtifactStore.cs:13-36 | however a sync ends, every list on disk is a whole artifact vouched for by a signed manifest; it returns after a download if and only if the server offers an accepted manifest and files with safe names and its hashes, and no file operation fails; then the marker is set, and all artifacts are installed exactly when entries whose names are equal up to case agree |
| ListInstall.SyncRepeatedly | apps/windows/src/SafeBrowse.Service/ProtectionWorker.cs:25-29 | any number of syncs, each of which may fail, be refused a file operation or lose power anywhere, leaves vouched lists only |
| ListInstall.CaseTwins | apps/windows/src/SafeBrowse.Service/ListArtifactStore.cs:26-33 | the run that goes wrong: a signed manifest with case twins, each served with its own hash, is installed with success, the marker is set, the next sync does nothing, and one list is missing |
| ListInstall.OnlyTwinsDisagree | apps/windows/src/SafeBrowse.Service/ListArtifactStore.cs:28-31 | a manifest that is installed with success and contradicts itself names one file in two ways: one name with two hashes is refused |
| ListInstall.InOrderIsAll | apps/windows/src/SafeBrowse.Service/ListArtifactStore.cs:26-33 | installing in order installs every entry if and only if entries for one file, names compared without case, agree |
| ListInstall.SealedIsAccepted | tools/blocklists/src/compiler.ts:39-43 | the agent accepts from the compiler's envelope exactly the signed manifest |
| ListInstall.ListStore.ReadManifest | apps/windows/src/SafeBrowse.Service/ListArtifactStore.cs:17-24 | a manifest is accepted only with a valid signature, the expected version inside and outside, and the named algorithm |
| AgentState.State.Evaluate | apps/windows/src/SafeBrowse.Service/AgentState.cs:18-28 | bypass, bootstrap or the policy's decision; at most 512 remembered, each the last decision for its name, and while there is room none is dropped |
| AgentState.State.Recent | apps/windows/src/SafeBrowse.Service/AgentState.cs:29 | exactly what is cached for the name, whatever its case, and that is the last decision made for it |
| AgentState.State.BeginEmergencyBypass | apps/windows/src/SafeBrowse.Service/AgentState.cs:30 | everything is allowed for exactly fifteen minutes |
| AgentState.ProtectionWorker.SyncOnce | apps/windows/src/SafeBrowse.Service/ProtectionWorker.cs:37-62 | a list sync that fails, at a file operation or elsewhere, still saves and uses the policy; only a power loss does not; vouched lists stay vouched |
| DnsMessage.QuestionRoundTrip | apps/windows/src/SafeBrowse.Core/DnsMessage.cs:8-21 | for all valid labels and at least four trailing octets, parsing the wire form gives the normalised name |
| DnsMessage.ParsedIsWire | apps/windows/src/SafeBrowse.Core/DnsMessage.cs:8-21 | a name comes only from a wire form behind a header that announces a question |
| DnsMessage.CanonicalQuestion | apps/windows/src/SafeBrowse.Core/DnsMessage.cs:8-21 | a canonical name asked for is the name read |
| DnsMessage.ReadQuestionName | apps/windows/src/SafeBrowse.Core/DnsMessage.cs:8-21 | the loop parses or rejects every packet without a read out of range, and as the grammar says |
| DnsMessage.BlockedKeepsQuestion | apps/windows/src/SafeBrowse.Core/DnsMessage.cs:23-31 | the blocked reply has the query's id and the same parsed question, well-formed or not |
| DnsMessage.BlockedFlags | apps/windows/src/SafeBrowse.Core/DnsMessage.cs:27-29 | QR, RA and RCODE are set, the other flags are the query's, no records are announced |
| DnsMessage.CreateBlockedResponse | apps/windows/src/SafeBrowse.Core/DnsMessage.cs:23-31 | a fresh changed copy of the same length, or the exception for a short packet |

## Left out

- Sockets, named pipes, HTTP clients, timers, service plumbing, dashboards and scripts: library behaviour and user interface.
- Email, push alerts, Turnstile and the offline-alert step of the nightly job: calls to others, with no state that another property needs.
- The Cloudflare Access and local-development logins: the ladder covers the bearer path; rows that Access provisions without a PIN are in the model.
- Child creation while a device syncs: a child is complete before its first enrolment, and one agent follows one child.
- PolicyTables.ScheduleList: schedules that tie in category and start time are ordered by insertion, which SQL leaves open.
- Isolation.HouseholdIsolation: row order, the 250-row limit and the text filters of the event and request lists, the heartbeat's versions and time, expiry, and the rate limits, which count by address and so across households, are not modelled; an enrolment and the reads of a policy view are one step each. Event ids that a household takes over from another one are excluded (ReusedEventId).
- AccountLadder.BothRungsStay: routes run one at a time, so two sign-ups or a set-up and a login are not interleaved.
- RateLimit.SlidingBound: requests on one bucket are handled one at a time; check and increment of concurrent requests are not interleaved.
- EventUpload.Conservation: the queue lives in memory, and a restart of the agent, which loses it, is not among the steps; events of other devices share no ids with this one.
- Progress of uploads: a batch that the server keeps refusing stays at the head of the queue.
- ListInstall.ListStore.Sync: a torn version marker may happen to name another version; the model allows it and claims nothing about a marker it did not write completely.
- AgentState.ProtectionWorker.SyncOnce: writing policy.json and reading the lists succeed; the power loss and the failure between saving and using a policy are in PolicySync.
- Installed lists match the policy's list version: not claimed, because a failed list sync is caught and the next sync gets a 304.
- Non-ASCII names, white space and case, and IDN mapping: names are lower-case ASCII labels on the agent and arbitrary results of the host parser on the worker.
- PasswordRecord.VerifyRecord: iteration counts are plain decimal digits; other spellings that JavaScript's Number accepts are not modelled.
- Totp.VerifyTotp: time steps are exact integer divisions; rounding of the worker's floating-point division is not modelled.
- BlocklistFeed.CompileSources: what a fetch answers is an input; time-outs, and the hashes, licences and names of an artifact are not modelled.
- ListInstall.ListStore.Sync: names fold by ASCII case; names with a colon, device names and trailing dots, which Windows reads in its own way, are not modelled.
- Audit rows, and the heartbeat's columns other than the status: written, never read by what is modelled.
