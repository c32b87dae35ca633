# Verified model of the AAA and billing services

A Dafny model of the parts of the AAA service and the BSS service that keep state, with proofs of what they
promise: that one configuration run brings a router to its desired state, that accounting conserves traffic and
billing conserves money, that locks, the outbox, jobs and secret rotation keep their invariants under interleaving and
failure, and that addresses are never leased twice. `dafny verify dfyconfig.toml` checks all of it.

Each component has the same shape. A value type holds its state, functions say what a step does to it, a class with
mutable fields does the same work statement by statement and is proved against those functions, and lemmas prove
properties of every run of the functions. Lemmas whose names end in `Means` or `Is` say what a step does on the fields
themselves, without the functions.

| component | modules |
|---|---|
| Desired-state planner, in-memory router, apply and verify | `Text`, `Intervals`, `Sorting`, `Router`, `Planner`, `Assignments`, `Apply`, `Convergence`, `Duplicates`, `Settled`, `ApplySafety` |
| Drift detection, sanitizing | `Drift`, `Sanitize` |
| Accounting ledger and fair-usage flag | `Accounting`, `LedgerRuns`, `AccountingFacts` |
| Lease lock, outbox and inbox, job runner | `Locks`, `Outbox`, `Jobs` |
| Secret rotation | `Rotation` |
| Invoices, payments, recurring billing | `Invoices`, `Billing`, `BillingRuns` |
| Address leases | `Leases` |

## Hypotheses

- Convergence needs distinct, trimmed desired addresses, services from the request schema, `accounting` whenever PPP AAA
  is wanted, distinct hotspot names, unique remote ids below the id counter, a router with an incoming row that accepts
  writes, and a desired state that passes validation. `CreatedMatchesIff` and `PppSettlesIff` show where the first ones
  come from, and `Duplicates.SettlesIffConsistent` what repeated addresses do.
- The lock theorems cover every interleaving in which no two-step deletion takes away another worker's unexpired lease;
  releases in one step always qualify. `Locks.DeletionSafeIff` shows that nothing less will do.
- The job theorems cover guarded runs: the write of a status, by a worker that has the lock, by a cancellation or by a
  worker that finds the NAS disabled, finds the job still waiting. Any number of workers may have read the job before,
  and leases may expire at any time. `Jobs.UndueIffNotWaiting` and `Jobs.OverwriteSafeIff` show that these are the checks
  the code lacks. That a dispatch happens under the lock needs instead that a lease outlives the work.
- Lease and invoice steps act on rows read at any time before. `Leases.Guarded` and `Invoices.Fresh` say what must still
  hold when they write, and `StepSafe` and `StepBalanced` prove both exact. A step that reads and writes in one
  transaction without interference always qualifies.
- Rotation runs are tidy: one open rotation at a time, a new secret that neither record nor router has yet, and rollbacks
  through an adapter, as the endpoint does. A rotation may begin while router and record disagree; only `CleanRunsAgree`
  starts from agreement. `Rotation.AgreeIffLast` needs none of this.
- An accounting packet and a quota reset are one step each in the theorems about runs. `LedgerRuns.OverlapConservesIff`
  says when a packet that overlaps others still conserves traffic.
- Billing starts with codes that differ in their last 24 characters, positive cycles, and no invoice under those codes.
  Plans may change between runs; catching up needs them active.

## Where the code differs from its description

- A rollback that takes effect on the router while its reply is lost commits nothing; verifying afterwards records the
  new secret although the router has the old one (`Rotation.LostRollbackDisagrees`).
- An active rotation has no outgoing transition, so the advertised rollback window cannot be used
  (`Rotation.ActiveIsFinal`).
- `process_nas_job` reads the status before it takes the lock and not again (`Jobs.OverlappingWorkersDispatchTwice`,
  `Jobs.CancelledJobDispatched`), and `cancel_nas_job` commits what it decided on a status read earlier
  (`Jobs.LateCancelDispatched`).
- When the adapter cannot be built, `process_nas_job` leaves the lock to its time to live and raises, because `adapter` is
  then unbound in the `finally` block.
- The table of job states has no move from RUNNING to SUCCEEDED, so `_job_finished` takes its fallback for every job that
  succeeds.
- Releasing a lock reads and deletes in two steps, in either store (`Locks.LateDeletionBreaksExclusion`).
- `publish_outbox` writes a counter of attempts it loaded earlier, so the counter may fall (`Outbox.AttemptsFallIff`).
- Drift detection takes the last entry of an address and the planner the first (`Drift.AgreeIffEndsAlike`).
- Two entries of one address with different wishes are accepted and never settle (`Duplicates.NoopsNeedConsistent`).
- Two overlapping accounting packets may lose usage (`LedgerRuns.OverlapLosesGrowth`).
- Nothing refuses a second open rotation of an assignment (`Rotation.TwoOpenRotations`).
- A cleanup or release decided before a reservation commits ends it, and a payment computed from an old balance undoes
  another (`Leases.UnguardedEndsReservation`, `Invoices.OverlappingPaymentsLoseOne`).
- An invoice request with an amount below its tax is accepted (`Invoices.NegativeSubtotalIff`).
- The insert of an allocated address fails when the address had a released lease, instead of passing on to the next
  host (`Leases.AllocateExact`, `Leases.ConflictStays`).
- Two schedules of one batch with one invoice number make every run over them fail (`BillingRuns.FailsIffCollide`).
- `update_invoice` marks an invoice as paid only while it still owes money (`Invoices.PaidByHandStillOwes`).
- The planner takes managed addresses; its caller passes remote ids. The model follows the planner.

## Model

| member | source | states |
|---|---|---|
| `Intervals.RoundTrip` | services/aaa-service/app/routeros.py:301-319 | parsing a printed interval gives the number of seconds back if and only if it is not negative; a negative one prints as text that does not parse |
| `Intervals.FormatInjective` | services/aaa-service/app/routeros.py:312-319 | different durations print as different texts |
| `Text.NumeralOfDigits` | services/aaa-service/app/routeros.py:308 | reading the printed decimal digits of a number gives the number |
| `Text.StripTakesBlanks` | services/aaa-service/app/routeros.py:202-203 | stripping takes blanks from both ends and leaves none there |
| `Intervals.UnitsAre` | services/aaa-service/app/routeros.py:309 | the seconds a number with each unit letter denotes: 1, 60, 3600, 86400, 604800 |
| `Intervals.ParsesIff` | services/aaa-service/app/routeros.py:303-307 | a text is an interval exactly when, stripped, it is digits and one of the five letters |
| `Intervals.LargestUnit` | services/aaa-service/app/routeros.py:316-319 | a number of seconds is printed in the largest unit that divides it |
| `Router.FakeRouter.CreateRadiusEntry` | services/aaa-service/app/routeros.py:1141-1147 | appends the normalized entry under the next remote id, or raises on a command error and changes nothing |
| `Router.FakeRouter.UpdateRadiusEntry` | services/aaa-service/app/routeros.py:1149-1165 | overwrites the managed fields of the first entry with the id; an unknown id is INVALID_RESPONSE and changes nothing |
| `Router.FakeRouter.RemoveRadiusEntry` | services/aaa-service/app/routeros.py:1167-1168 | removes every entry with the id and keeps the order of the others |
| `Router.FakeRouter.ConfigurePppAaa` | services/aaa-service/app/routeros.py:1170-1176 | writes the PPP flags and, when given, the printed interval |
| `Router.FakeRouter.ConfigureUserAaa` | services/aaa-service/app/routeros.py:1178-1186 | writes the user AAA settings; a missing default group keeps the old one |
| `Router.FakeRouter.ConfigureHotspotRadius` | services/aaa-service/app/routeros.py:1188-1198 | writes the first profile of the name; an unknown name fails and changes nothing |
| `Router.FakeRouter.ConfigureRadiusIncoming` | services/aaa-service/app/routeros.py:1200-1209 | writes the first incoming row and no other |
| `Router.CreateMeans` | services/aaa-service/app/routeros.py:1141-1147 | field by field, the entry a create appends, with defaults and trimmed texts, and what it leaves alone |
| `Router.ServicesMean` | services/aaa-service/app/routeros.py:206-209 | service names lose blanks, blank names go, and ppp in any case becomes pppoe, name by name |
| `Router.UpdateMeans` | services/aaa-service/app/routeros.py:1149-1165 | field by field, the one entry an update writes, and that every other field and entry stays |
| `Router.HotspotWriteMeans` | services/aaa-service/app/routeros.py:1188-1198 | field by field, the one profile written, and that the others stay |
| `Router.IncomingWriteMeans` | services/aaa-service/app/routeros.py:1200-1209 | field by field, the first incoming row after a write, and that the rest stays |
| `Planner.ComputeRadiusChanges` | services/aaa-service/app/nas_desired_state.py:114-147 | the loops compute exactly one add, update or no-op per desired entry, by its first entry of that address, followed by one removal per managed orphan in table order |
| `Planner.ComputeHotspotChanges` | services/aaa-service/app/nas_desired_state.py:176-198 | one operation per selected profile, a no-op exactly when RADIUS and accounting are on |
| `Planner.ValidateDesired` | services/aaa-service/app/nas_desired_state.py:213-242 | reports each validation error exactly when its condition holds |
| `Planner.RiskForDesired` | services/aaa-service/app/nas_desired_state.py:245-263 | CRITICAL exactly for administrative login; otherwise HIGH exactly when a primary server is updated or an entry removed; otherwise MEDIUM exactly with an interval |
| `Planner.ComputePlan` | services/aaa-service/app/nas_desired_state.py:266-303 | the operations of all five areas in order; valid exactly when nothing is violated; a warning per externally managed entry, in table order; the risk class, and approval exactly for administrative login |
| `Planner.ValidIff` | services/aaa-service/app/nas_desired_state.py:213-242 | a desired state is valid if and only if it has an assignment, respects the login conditions, the interval bounds and the supported services, and asks for nothing the router lacks |
| `Planner.ErrorsMean` | services/aaa-service/app/nas_desired_state.py:213-242 | each error in terms of the desired state |
| `Planner.WarningsMean` | services/aaa-service/app/nas_desired_state.py:290-293 | a warning for each entry with an address that is neither desired nor managed, in table order |
| `Settled.NoopsIffSettled` | services/aaa-service/app/nas_desired_state.py:266-287 | on router fields: the plan is all no-ops if and only if every wanted address is served with the wanted values, no managed address is unwanted, and PPP, user, hotspot and incoming rows have what is wanted |
| `Settled.UnservedIsPlanned` | services/aaa-service/app/nas_desired_state.py:127-140 | a wanted address that is not served has its addition or the update of its first entry in the plan, with the wanted values |
| `Settled.UnwantedIsRemoved` | services/aaa-service/app/nas_desired_state.py:142-145 | each entry of a managed address nobody wants has its removal in the plan |
| `Settled.SettingsPlannedIff` | services/aaa-service/app/nas_desired_state.py:150-210 | the update of the PPP, user or incoming row, with the wanted values, is in the plan if and only if the row differs |
| `Settled.ProfilePlannedIff` | services/aaa-service/app/nas_desired_state.py:176-198 | a profile on the wish list without both flags has its update in the plan |
| `Settled.SettingsAfterPlan` | services/aaa-service/app/nas_service.py:222-235 | after a plan has run in any order: each row that differed holds the wanted flags, interval, groups, port; each that did not is as it was |
| `Settled.UnwishedProfilesStay` | services/aaa-service/app/nas_desired_state.py:182-184 | a plan leaves every hotspot profile nobody wished for as it is |
| `Assignments.BuildDesiredAssignments` | services/aaa-service/app/nas_desired_state.py:40-65 | one normalized entry per enabled assignment, in the order of EnabledByPriority |
| `Assignments.EnabledOrder` | services/aaa-service/app/nas_desired_state.py:46-48 | the enabled assignments, each once, by ascending priority, ties in table order |
| `Assignments.NormalizedMeans` | services/aaa-service/app/nas_desired_state.py:51-64 | field by field: each port of the assignment in its own place, or the one of its server where it is missing or zero |
| `Assignments.EnabledMeans` | services/aaa-service/app/nas_desired_state.py:47 | the enabled assignments are those not disabled, as often as in the table and in its order |
| `Sorting.StableSortIsStable` | services/aaa-service/app/nas_service.py:199 | the sorted list is ordered by key and elements of one key keep their order |
| `Sorting.StableSortUnique` | services/aaa-service/app/nas_service.py:199 | order and stability determine the result: any two such lists with the same elements per key are equal |
| `Apply.ErrorStops` | services/aaa-service/app/nas_service.py:200-236 | an error stops the operations after it: the outcome is that of the prefix |
| `Apply.NasRecord.UpsertRemoteObject` | services/aaa-service/app/nas_service.py:239-252 | inserts or overwrites the ownership row of one remote id |
| `Apply.NasRecord.DropRemoteObject` | services/aaa-service/app/nas_service.py:255-258 | deletes the ownership row of one remote id |
| `Apply.ApplyOperation` | services/aaa-service/app/nas_service.py:203-235 | one operation writes the router and then the ownership row, which stays as it was when the write failed |
| `Apply.ApplyOperations` | services/aaa-service/app/nas_service.py:195-236 | router and rows end as the stably sorted operations leave them, up to the first error |
| `Apply.VerifyNasConfiguration` | services/aaa-service/app/nas_service.py:282-301 | matched exactly when a fresh plan has only no-ops; the differences are its other operations, in order; one snapshot of the state, one version above the highest |
| `Convergence.ValidIsSettleable` | services/aaa-service/app/nas_desired_state.py:213-242 | a valid desired state meets what convergence needs and has an assignment |
| `Convergence.DueIffPlanned` | services/aaa-service/app/nas_desired_state.py:266-287 | the plan holds exactly the operations the state still needs, beside no-ops |
| `Convergence.CreatedMatchesIff` | services/aaa-service/app/routeros.py:226-244 | a created entry satisfies the planner if and only if normalization keeps its address, services and source address |
| `Convergence.PppSettlesIff` | services/aaa-service/app/nas_desired_state.py:150-159 | the PPP area settles in one update if and only if accounting is wanted |
| `Convergence.RadiusDischarged` | services/aaa-service/app/nas_desired_state.py:127-142 | a write that serves one desired entry and leaves the lookup of the others removes exactly its own operation from the due ones |
| `Convergence.StepDischarges` | services/aaa-service/app/nas_service.py:200-236 | running any due operation raises no error, keeps the router sound and leaves exactly the other due operations |
| `Convergence.PlannedOnce` | services/aaa-service/app/nas_desired_state.py:266-287 | no operation is planned twice |
| `Convergence.RunInSync` | services/aaa-service/app/nas_service.py:200-236 | after any prefix of a plan run in any order, what remains is exactly the plan for the state reached |
| `Convergence.Converges` | services/aaa-service/app/nas_service.py:195-301 | running a plan once, in any order, makes the next plan all no-ops in all five areas, also once the desired addresses count as managed |
| `Duplicates.SettlesIffConsistent` | services/aaa-service/app/nas_desired_state.py:127-142 | with addresses named more than once, the planned operations of all desired entries leave only no-ops for them if and only if entries of one address ask for the same |
| `Duplicates.NoopsNeedConsistent` | services/aaa-service/app/nas_desired_state.py:91-100 | on any table, a plan of no-ops means that desired entries of one address ask for the same, and all are served |
| `ApplySafety.ApplyOrder` | services/aaa-service/app/nas_service.py:199 | the executed order is a permutation of the plan: adds first, removals after all updates, planned order kept within a rank |
| `ApplySafety.EveryPrefixProtects` | services/aaa-service/app/nas_service.py:199-236 | at every prefix, entries neither desired nor managed keep all fields, order and ownership rows, and no entry with a desired address has been removed |
| `ApplySafety.NeverEmpty` | services/aaa-service/app/nas_service.py:196-236 | a non-empty RADIUS table is non-empty at every prefix |
| `ApplySafety.WrittenEntriesAreRecorded` | services/aaa-service/app/nas_service.py:206-219 | every desired entry that needed a write has its ownership row, with its assignment and values, at the end |
| `ApplySafety.RemovedEntriesAreForgotten` | services/aaa-service/app/nas_service.py:220-223 | every managed entry nobody wants is gone after the plan, from the router and from the ownership rows |
| `ApplySafety.AppliedConverges` | services/aaa-service/app/nas_service.py:268-279 | the sorted plan of a valid desired state converges without an error |
| `ApplySafety.ApplyNasConfiguration` | services/aaa-service/app/nas_service.py:268-301 | an invalid state changes nothing; a valid one under the hypotheses of convergence is applied without error and verified; matched if and only if the router fields are as wanted in all five areas |
| `Drift.RadiusFieldsMatch` | services/aaa-service/app/nas_drift.py:18-32 | lists exactly the differing fields; empty exactly when the planner sees a match |
| `Drift.DetectDrift` | services/aaa-service/app/nas_drift.py:35-101 | reports exactly the items that drifted, and exactly the worst severity among them |
| `Drift.IndexIsScan` | services/aaa-service/app/nas_drift.py:47 | under unique addresses the dictionary lookup finds what the planner's linear scan finds |
| `Drift.DriftAgreesWithPlan` | services/aaa-service/app/nas_drift.py:49-58 | when the first and last entries of each address look alike, no missing or differing entry is reported if and only if the RADIUS part of the plan is all no-ops |
| `Drift.AgreeIffEndsAlike` | services/aaa-service/app/nas_drift.py:47 | drift detection and planner agree on every desired state, with no managed address beyond the desired ones, if and only if for each address the first and last entries of the table look alike after defaults |
| `Drift.UnlikeEndsDisagree` | services/aaa-service/app/nas_drift.py:47 | otherwise, asking for what the first entry has makes the plan all no-ops while drift is reported |
| `Drift.UniqueAddressesAlike` | services/aaa-service/app/nas_drift.py:47 | tables with unique addresses are a special case |
| `Drift.AddIsCritical` | services/aaa-service/app/nas_drift.py:52-54 | on any table a planned addition makes the classification CRITICAL |
| `Drift.ClassificationMeans` | services/aaa-service/app/nas_drift.py:89-99 | the classification by what the items are about |
| `Drift.AddressItemsMean` | services/aaa-service/app/nas_drift.py:60-70 | when an external entry and a removed object are reported, in terms of the table, the wishes and the managed addresses |
| `Drift.SettingItemsMean` | services/aaa-service/app/nas_drift.py:72-87 | when PPP, user and incoming drift is reported, and that the planner then has the update |
| `Drift.DuplicateAddressesDisagree` | services/aaa-service/app/nas_drift.py:47 | an instance: two entries of one address with different timeouts |
| `Sanitize.SanitizedAt` | services/aaa-service/app/nas_planning.py:7-15 | the value at every path of the sanitized form: nothing through a prohibited key, and the sanitized value of the original everywhere else |
| `Sanitize.NoProhibitedKeyLeft` | services/aaa-service/app/nas_planning.py:7-15 | no path through a prohibited key exists at any depth |
| `Sanitize.SanitizeIdempotent` | services/aaa-service/app/nas_planning.py:7-15 | sanitizing twice is sanitizing once |
| `Sanitize.UnchangedIffClean` | services/aaa-service/app/nas_planning.py:7-15 | a value is unchanged if and only if no prohibited key occurs in it at any depth |
| `Sanitize.HashOfSanitized` | services/aaa-service/app/nas_planning.py:17-18 | a configuration and its sanitized form have one hash, shared by every configuration with the same sanitized form |
| `Sanitize.SecretKeysGo` | services/aaa-service/app/nas_planning.py:9-13 | nothing is left behind a key that folds to one of the five secret names |
| `Sanitize.OtherPathsStay` | services/aaa-service/app/nas_planning.py:10-15 | every other path stays, with its plain values |
| `Sanitize.HashesEqualIff` | services/aaa-service/app/nas_planning.py:17-18 | with an injective digest, hashes are equal if and only if the sanitized forms are |
| `Accounting.SplitCounter` | services/aaa-service/app/radius.py:51-52 | splitting a total into gigawords and octets (sections 5.1 and 5.2 of RFC 2869) and joining them gives the total |
| `Accounting.AccountingService.Handle` | services/aaa-service/app/services.py:98-153 | one packet: the answer, and sessions, usage, keys, commands and notices as the specification of the ledger says; a refused or repeated packet changes nothing |
| `Accounting.AccountingService.ProjectUsage` | services/aaa-service/app/services.py:133-151 | usage grows by the positive part of the growth, and the flag is raised with its notice and commands when the threshold is first reached |
| `Accounting.AccountingService.QueueCoa` | services/aaa-service/app/services.py:147-152 | the queue is as the specification says: one command and notice per live session of the subscriber whose key is new |
| `Accounting.AccountingService.SignalNas` | services/aaa-service/app/services.py:114-121 | a NAS signal makes exactly its suspect sessions stale, each with a notice |
| `Accounting.AccountingService.ResetUsage` | services/aaa-service/app/main.py:985-1000 | a reset zeroes one usage row and clears a raised flag with notice and commands; without the row nothing changes |
| `AccountingFacts.CounterIs` | services/aaa-service/app/radius.py:51-52 | a counter is its gigawords times two to the 32 plus its octets |
| `AccountingFacts.SameKeyIff` | services/aaa-service/app/services.py:106 | two packets have one key if and only if both bring the same key, or neither does and NAS, session, kind, timestamp and totals agree |
| `AccountingFacts.AnswerMeans` | services/aaa-service/app/services.py:98-112 | which answer a packet gets; a refused or repeated packet changes nothing |
| `AccountingFacts.TrafficRow` | services/aaa-service/app/services.py:118-131 | the session row after a start, interim or stop: its counters, status, NAS and subscriber; other rows stay |
| `AccountingFacts.NasSignalRows` | services/aaa-service/app/services.py:114-121 | a NAS that goes on or off makes exactly its own open sessions stale, with a notice for each and one for the packet |
| `AccountingFacts.QueuedExactly` | services/aaa-service/app/services.py:147-152 | the commands added are exactly those of the given sessions of the subscriber that are starting or active and not there yet, once each, with one notice each |
| `AccountingFacts.PacketCommands` | services/aaa-service/app/services.py:143-153 | a packet adds commands exactly when it raises the flag of its subscriber, for that subscriber only, and the notices around them |
| `AccountingFacts.ResetCommands` | services/aaa-service/app/main.py:985-1000 | a reset zeroes one row, and adds commands exactly when it clears a raised flag, for that subscriber only |
| `AccountingFacts.CommandsStayWithSubscriber` | services/aaa-service/app/services.py:147-148 | no command is added for a session of another subscriber |
| `LedgerRuns.Conservation` | services/aaa-service/app/services.py:122-140 | in every run, usage over all periods plus what resets erased grows by exactly what the session counters grow, per subscriber and direction |
| `LedgerRuns.ConservationFromEmpty` | services/aaa-service/app/services.py:122-140 | from an empty ledger: usage plus erased usage equals the sum of the session counters |
| `LedgerRuns.FupSoundAlways` | services/aaa-service/app/services.py:141-152 | with a positive threshold, in every run: each flag says whether the threshold is reached, activated minus cleared notices is 1 or 0 accordingly, one row per period, no command key twice |
| `LedgerRuns.FlagsRightIffPositive` | services/aaa-service/app/services.py:141-145 | the flags are right in every run if and only if the threshold is positive |
| `LedgerRuns.FinalCounter` | services/aaa-service/app/services.py:122-129 | after any sequence of one session's packets the counter is the largest total reported |
| `LedgerRuns.FinalUsage` | services/aaa-service/app/services.py:133-140 | the owner's usage of the period grows by what the session counter grows, other usage not at all |
| `LedgerRuns.KeysAlwaysCounted` | services/aaa-service/app/services.py:106-112 | in every run a recorded server-side key has its totals in the session counter |
| `LedgerRuns.OrderIndependence` | services/aaa-service/app/services.py:106-140 | two deliveries of the same packets, in any order and with any repeats, leave the same counters and the same usage |
| `LedgerRuns.TotalsDecide` | services/aaa-service/app/services.py:106-140 | two deliveries of packets that report the same true totals, split as in sections 5.1 and 5.2 of RFC 2869, in any order and with any repeats, leave the largest total as the counter and the same usage |
| `LedgerRuns.OverlapConservesIff` | services/aaa-service/app/services.py:126-140 | a packet on rows read earlier adds to the usage what it adds to the session if and only if its total is not above the counter it read, or both rows have grown alike since |
| `LedgerRuns.OverlapLosesGrowth` | services/aaa-service/app/services.py:133-140 | an instance: of two packets that read one usage row, only the growth of the second is kept |
| `Locks.LockStore.AcquireNasLock` | services/aaa-service/app/locks.py:28-87 | acquired exactly when the store in use has no row, an expired one or the owner's own; a refusal by Redis does not reach the database |
| `Locks.LockStore.ReleaseNasLock` | services/aaa-service/app/locks.py:90-109 | removes the owner's own lock and no other |
| `Locks.NoTwoHolders` | services/aaa-service/app/locks.py:59-87 | over all interleavings of reads, writes, ticks and releases in which no deletion takes away another worker's unexpired lease, at most one worker holds one |
| `Locks.AtomicReleasesExclude` | services/aaa-service/app/locks.py:105-109 | mutual exclusion in every run whose releases are single steps |
| `Locks.DeletionSafeIff` | services/aaa-service/app/locks.py:105-109 | the condition is exact, in either store: a deletion, and a worker coming in after it, leave two holders if and only if the deleted row is another worker's unexpired lease |
| `Locks.TakeoverOnlyAfterExpiry` | services/aaa-service/app/locks.py:72-83 | a row passes from one owner to another only after it expired |
| `Locks.EnterIff` | services/aaa-service/app/locks.py:37-87 | a worker that is not disturbed gets the lock exactly when there is none, it has its own or the one there is over, in Redis from the second it expires and in the database after it |
| `Locks.ReleaseMeans` | services/aaa-service/app/locks.py:95-109 | a holder takes its own row away and no other, in one step or in two with nothing between |
| `Locks.LateDeletionBreaksExclusion` | services/aaa-service/app/locks.py:105-109 | an instance for every time to live: a late two-step release deletes the next owner's row and two workers hold the lock |
| `Outbox.EventService.PublishOutbox` | services/aaa-service/app/events.py:110-119 | the oldest pending events, up to the limit, are sent oldest first; with all sent exactly these become published, otherwise none; their attempts grow by one and no other row changes |
| `Outbox.EventService.SelectPending` | services/aaa-service/app/events.py:111 | the first events of the pending ones in order of occurrence, up to the limit |
| `Outbox.SelectionIsOldest` | services/aaa-service/app/events.py:111 | a selection has no repeats and only pending events, all of them when below the limit, and with each event every pending one before it |
| `Outbox.EventService.ConsumeOnce` | services/aaa-service/app/events.py:148-153 | a receipt already in the inbox is a duplicate; a new one is stored and processed once |
| `Outbox.PublishedIsAtBroker` | services/aaa-service/app/events.py:110-119 | in every run with crashes and partial sends, a published event is at the broker and only committed events are there |
| `Outbox.CommittedIsNeverLost` | services/aaa-service/app/events.py:110-119 | a committed event leaves the pending set only when it is at the broker, and never becomes pending again |
| `Outbox.EndOfBatch` | services/aaa-service/app/events.py:110-119 | a publisher that has sent everything and confirms leaves none of its batch pending and changes no other row; a failed one publishes nothing |
| `Outbox.SelectionsSkipPublished` | services/aaa-service/app/events.py:111 | whatever happens later, no selection contains a published event |
| `Outbox.DeliveryProcesses` | services/aaa-service/app/events.py:145-154 | an undisturbed delivery of an event new to the consumer is processed once and its receipt kept |
| `Outbox.AttemptsFallIff` | services/aaa-service/app/events.py:114-119 | the counter of attempts falls exactly when a publisher ends its batch although the counter has grown by two or more since it loaded its rows |
| `Outbox.AttemptLost` | services/aaa-service/app/events.py:114-116 | an instance: one failure after two failures of another publisher takes an attempt back |
| `Outbox.ProcessedAtMostOnce` | services/aaa-service/app/events.py:148-153 | under any redelivery to concurrent consumers the processor runs at most once per event and consumer |
| `Jobs.JobRunner.QueueNasJob` | services/aaa-service/app/workers.py:192-204 | a queued job is appended if and only if no job has both its NAS and its key |
| `Jobs.JobRunner.CancelNasJob` | services/aaa-service/app/main.py:574-582 | only a waiting job is cancelled; 404 and 409 otherwise, with nothing changed |
| `Jobs.JobRunner.ProcessNasJob` | services/aaa-service/app/workers.py:76-127 | a whole call has the effect of its steps, told on jobs, locks and log for every branch: not waiting, NAS disabled, NAS locked, build error, early error, dispatch with its outcome |
| `Jobs.JobRunner.Finished` | services/aaa-service/app/workers.py:65-69 | the status is assigned whether the transition table allows the move or not |
| `Jobs.ProcessIs` | services/aaa-service/app/workers.py:76-127 | the steps of a whole call amount to one dispatch and one final status, or nothing; the lock is given back unless the adapter could not be built |
| `Jobs.DispatchedAtMostOnce` | services/aaa-service/app/workers.py:76-127 | in every guarded run, whoever reads the job and whatever leases expire: one job per NAS and key, each dispatched at most once, a waiting or cancelled one never |
| `Jobs.DispatchUnderLock` | services/aaa-service/app/workers.py:90-99 | every dispatch is of a running job not dispatched before if the run is guarded, and by the worker that holds the NAS's lock if leases outlive the work |
| `Jobs.EndedStaysEnded` | services/aaa-service/app/workers.py:82-83 | after a guarded run a finished or cancelled job keeps its row and gains no dispatch in any guarded step |
| `Jobs.UndueIffNotWaiting` | services/aaa-service/app/workers.py:82-99 | the guard is exact: a worker with the lock dispatches its job whatever the status, and the dispatch repeats another or is of an ended job if and only if the job is no longer waiting, unless a worker crashed on it before dispatching |
| `Jobs.OverwriteSafeIff` | services/aaa-service/app/main.py:579-580 | the guard of a cancellation, and of the failure on a disabled NAS, is exact: the write keeps the invariant and every ended job if and only if it finds the job waiting, or changes nothing, or hits a job a worker crashed on |
| `Jobs.LateCancelDispatched` | services/aaa-service/app/main.py:574-582 | an instance: a cancellation that read the job as waiting and commits while a worker is on it leaves a cancelled job that is dispatched |
| `Jobs.BuildErrorOverwritesEnded` | services/aaa-service/app/workers.py:112-121 | without the guard a build error overwrites the status of a job that has ended |
| `Jobs.OverlappingWorkersDispatchTwice` | services/aaa-service/app/workers.py:82-90 | an instance: a worker that read the status before another finished dispatches the job a second time |
| `Jobs.CancelledJobDispatched` | services/aaa-service/app/main.py:579-580 | an instance: a job cancelled after a worker read its status is dispatched all the same |
| `Rotation.RotationService.StartRotation` | services/aaa-service/app/nas_rotation.py:26-59 | a rotation at version plus one with old and new secret and one package, in one commit; a token in use refuses both |
| `Rotation.RotationService.RevealRotationSecret` | services/aaa-service/app/nas_rotation.py:62-75 | the new secret of the rotation for a valid, unexpired and unused token, which is then used up |
| `Rotation.RotationService.ConfirmFreeRadiusUpdate` | services/aaa-service/app/nas_rotation.py:78-82 | records a confirmation exactly in the awaiting stage |
| `Rotation.RotationService.ApplySecretToRouter` | services/aaa-service/app/nas_rotation.py:85-105 | what is committed and what the router holds for each way the router call can end |
| `Rotation.RotationService.VerifyRotation` | services/aaa-service/app/nas_rotation.py:108-122 | from verification only: the record takes the new secret and version |
| `Rotation.RotationService.RollbackSecret` | services/aaa-service/app/nas_rotation.py:125-146 | record and router go back together when the call succeeds; otherwise nothing is committed |
| `Rotation.RotationService.ExpireOldSecret` | services/aaa-service/app/nas_rotation.py:149-155 | only an active rotation forgets its old secret |
| `Rotation.RunKeepsInv` | services/aaa-service/app/nas_rotation.py:26-155 | in every tidy run, also when rotations begin out of step, the open rotation, the record and the router fit together in each stage |
| `Rotation.ConfirmedBeforeRouter` | services/aaa-service/app/nas_rotation.py:78-105 | the router holds the new secret of the last rotation only after a FreeRADIUS confirmation was recorded |
| `Rotation.Agreement` | services/aaa-service/app/nas_rotation.py:108-146 | whatever the rotation began with. ACTIVE: the record has the new secret at version old plus one, and the router has it if and only if no rollback was lost since the start; ROLLED_BACK: record and router have the old secret, the record the old version |
| `Rotation.RotationRestores` | services/aaa-service/app/nas_rotation.py:108-146 | once the last rotation is closed, router and record agree if and only if it was rolled back or no rollback was lost since it began, however far apart they were before |
| `Rotation.CleanRunsAgree` | services/aaa-service/app/nas_rotation.py:26-155 | without lost rollbacks, over any number of rotations, router and record agree whenever none is open |
| `Rotation.ReachesVerification` | services/aaa-service/app/nas_rotation.py:85-105 | start, confirmation and a successful apply reach verification with the new secret on the router, whatever it held before |
| `Rotation.LostRollbackDisagrees` | services/aaa-service/app/nas_rotation.py:125-141 | a rollback that takes effect but reports a failure, followed by verification, ends ACTIVE with the old secret on the router |
| `Rotation.BlindRollback` | services/aaa-service/app/nas_rotation.py:127-146 | without an adapter a rollback ends in agreement if and only if the router still had the old secret |
| `Rotation.VerifyAgreesIff` | services/aaa-service/app/nas_rotation.py:108-122 | a verification ends in agreement if and only if the router has the secret of the rotation verified |
| `Rotation.AgreeIffLast` | services/aaa-service/app/nas_rotation.py:85-146 | in every run whatever, with any number of open rotations: router and record agree if and only if the last secret written to the router is the last one the record took over |
| `Rotation.TwoOpenRotations` | services/aaa-service/app/nas_rotation.py:26-43 | an instance: two open rotations get the same version; after both are applied and verified, record and router agree if the one applied last is verified last, and otherwise only if the secrets are equal |
| `Rotation.ActiveIsFinal` | services/aaa-service/app/nas_lifecycle.py:63-75 | an active rotation cannot be rolled back, within its rollback window or after |
| `Rotation.RevealedOnce` | services/aaa-service/app/nas_rotation.py:62-75 | a token reveals the new secret of its rotation and, whatever happens later, never a second time |
| `Rotation.TokenLife` | services/aaa-service/app/nas_rotation.py:62-75 | however the system goes on, an unused token reveals the secret its rotation was started with if and only if it is at most 600 seconds old |
| `Rotation.StrangeTokenRevealsNothing` | services/aaa-service/app/nas_rotation.py:66-68 | a token not issued for the rotation reveals nothing and changes nothing |
| `Rotation.RevealMarks` | services/aaa-service/app/nas_rotation.py:74 | a reveal marks its package with the time and nothing else |
| `Rotation.StartMeans` | services/aaa-service/app/nas_rotation.py:26-59 | field by field, the rotation and package a start adds |
| `Rotation.StepMeans` | services/aaa-service/app/nas_rotation.py:78-122 | what confirmation, verification, expiry and an apply do to the rotation and the record, by the stage they find |
| `Rotation.RollbackMeans` | services/aaa-service/app/nas_rotation.py:125-146 | when a rollback completes, and what it sets back; otherwise nothing is committed |
| `Rotation.AppliedRouterMeans` | services/aaa-service/app/nas_rotation.py:85-102 | entry by entry, what an application leaves on the router: the managed entry gets the new secret when the call reaches it, every other entry stays |
| `Rotation.RolledBackRouterMeans` | services/aaa-service/app/nas_rotation.py:125-141 | entry by entry, what a rollback leaves on the router: the managed entry gets the old secret when the call reaches it, every other entry stays |
| `Rotation.WriteMeans` | services/aaa-service/app/nas_rotation.py:91-102 | the entry written is the first with the remote id on record or, without one, with the id of the first entry at the address of the server |
| `Invoices.AcceptedTotals` | services/bss-service/app/main.py:73-89 | a request is accepted with a subtotal and total if and only if they add up to a positive total consistent with every field given |
| `Invoices.NegativeSubtotalIff` | services/bss-service/app/main.py:73-82 | a negative subtotal is accepted if and only if it is left out and the amount is positive and below the tax |
| `Invoices.StepBalanced` | services/bss-service/app/main.py:349-385 | a step on values read earlier keeps amount equal to balance plus payments, 0 <= balance <= amount and a zero balance paid, if and only if those values still hold where it matters |
| `Invoices.MoneyConserved` | services/bss-service/app/main.py:349-385 | conservation over every run of such steps; balances only fall and an invoice at zero stays paid |
| `Invoices.InvoiceAddsUp` | services/bss-service/app/main.py:349-385 | from empty books, an invoice keeps its positive amount, what is owed and what was paid add up to it, and its balance only falls, to zero only when paid |
| `Invoices.CurrentIsFresh` | services/bss-service/app/main.py:349-385 | a step on the books as they are meets the condition |
| `Invoices.OverlappingPaymentsLoseOne` | services/bss-service/app/main.py:349-356 | two payments that read the same balance are both taken, and the balance drops by the second only |
| `Invoices.PaidByHandStillOwes` | services/bss-service/app/main.py:377-385 | a status update to paid always leaves a positive balance, and the next part payment takes the status back |
| `Invoices.PaymentMeans` | services/bss-service/app/main.py:349-356 | when a payment is accepted, and the balance, status and payments after it |
| `Invoices.StatusMoves` | services/bss-service/app/main.py:382-385 | the eight changes of status a request may make, and no others |
| `Invoices.RefreshMeans` | services/bss-service/app/billing_cycles.py:71-83 | which invoices a refresh makes overdue, by due date, balance, status and tenant |
| `Invoices.InvoiceDesk.CreateInvoice` | services/bss-service/app/main.py:285-312 | one issued, fully due invoice exactly when the totals are valid, the plan exists and is not of another tenant, and the number is new |
| `Invoices.InvoiceDesk.RecordPayment` | services/bss-service/app/main.py:349-356 | accepted exactly when positive, within the balance and with a new reference; otherwise nothing changes |
| `Invoices.InvoiceDesk.UpdateInvoice` | services/bss-service/app/main.py:377-385 | the status moves exactly along the table; the same status is accepted and changes nothing |
| `Invoices.InvoiceDesk.RefreshOverdue` | services/bss-service/app/billing_cycles.py:71-83 | exactly the unpaid issued or partially paid invoices past due become overdue, and the count is theirs |
| `Billing.TaxIsNearest` | services/bss-service/app/billing_cycles.py:48 | the tax is the one whole number of cents within half a cent of the exact value, the upper one on a tie |
| `Billing.LinesSumToAmount` | services/bss-service/app/billing_cycles.py:47-58 | line items add up to the amount, which is the balance due, with the tax within half a cent |
| `Billing.RunIs` | services/bss-service/app/billing_cycles.py:35-61 | a run bills each schedule once on what it was before: advanced if its plan is active, invoiced unless the number is taken |
| `Billing.RunMeans` | services/bss-service/app/billing_cycles.py:35-61 | a committed run adds one invoice for each schedule of its batch with an active plan and a free number, and no others: with the custom amount or else the fee, tax, tenant, due date, period and lines; billed schedules move on by their cycle |
| `Billing.CustomIgnoresFee` | services/bss-service/app/billing_cycles.py:47 | with a custom amount the fee of the plan makes no difference |
| `Billing.CodeMeans` | services/bss-service/app/billing_cycles.py:42 | the code is the account code, or its last 24 characters |
| `Billing.FailuresMean` | services/bss-service/app/billing_cycles.py:36-39 | the failures are the accounts of the batch without an active plan, in order |
| `Billing.DueMeans` | services/bss-service/app/billing_cycles.py:25-34 | which schedules may be selected, and that at most 1000 are |
| `Billing.BillingService.RunDueBilling` | services/bss-service/app/billing_cycles.py:21-68 | the loop and the commit: new schedules and invoices, or nothing without the lock or on a failed commit, with the counts |
| `Billing.NextNumberIsNew` | services/bss-service/app/billing_cycles.py:42-43 | the number of the next period was never used by the schedule before |
| `Billing.RunCovers` | services/bss-service/app/billing_cycles.py:35-61 | a run over covered schedules always commits and keeps every schedule covered |
| `Billing.ExactlyOnce` | services/bss-service/app/billing_cycles.py:35-61 | in every history of billing runs and desk work, a schedule is invoiced for exactly its first n periods, once each and in order, and next_invoice_at is the start of period n |
| `Billing.BackToBack` | services/bss-service/app/billing_cycles.py:40-41 | period k begins k cycles after the start and ends one second before period k plus one |
| `BillingRuns.OnePeriodEach` | services/bss-service/app/billing_cycles.py:35-61 | a run invoices each schedule of its batch with an active plan for exactly one more period, and no other |
| `BillingRuns.RunReducesLateness` | services/bss-service/app/billing_cycles.py:25-34 | with something due, a run over any batch the query may return strictly reduces the total overdue time |
| `BillingRuns.Progress` | services/bss-service/app/billing_cycles.py:25-61 | each run in a row takes at least one second off the total overdue time until none is left |
| `BillingRuns.SelectionExists` | services/bss-service/app/billing_cycles.py:25-34 | for every table and instant there is a batch the query may return: the due schedules sorted by their next invoice, cut at 1000 |
| `BillingRuns.SelectionsExist` | services/bss-service/app/billing_cycles.py:25-34 | so there are runs in a row of every length |
| `BillingRuns.CatchesUp` | services/bss-service/app/billing_cycles.py:25-61 | as many runs as overdue seconds leave nothing due, and any further run changes nothing |
| `BillingRuns.RunBalanced` | services/bss-service/app/billing_cycles.py:47-58 | generated invoices owe their amount, so the books stay balanced |
| `BillingRuns.LedgerBalanced` | services/bss-service/app/billing_cycles.py:47-83 | over billing runs and desk work together amount equals balance plus payments, balances only fall, and what was fully paid stays paid |
| `BillingRuns.FailsIffCollide` | services/bss-service/app/billing_cycles.py:42-67 | a run cannot commit if and only if two schedules of its batch share the end of their codes and a day; it then changes nothing, and so does every repetition |
| `Leases.HostIff` | services/aaa-service/app/ipam.py:21-23 | the hosts scanned are the addresses of the network, without the first and last one of an IPv4 network shorter than /31 |
| `Leases.SizeMeans` | services/aaa-service/app/ipam.py:21 | a full prefix is one address and each bit less doubles the network |
| `Leases.EligibleIff` | services/aaa-service/app/ipam.py:22-27 | a host is eligible when no live lease of the tenant has it, in any pool, and the pool does not exclude it |
| `Leases.FirstEligible` | services/aaa-service/app/ipam.py:21-28 | the least host of the pool that is neither occupied nor excluded, at or after a start |
| `Leases.StepSafe` | services/aaa-service/app/main.py:847-866 | a step on rows read at any time before keeps one row per tenant and address and the holder of each row; it keeps reservations live if and only if it is guarded |
| `Leases.LeaseSafety` | services/aaa-service/app/workers.py:37-47 | in every run, every step on reads however stale: live leases of a tenant have distinct addresses across all pools |
| `Leases.ReservationsLast` | services/aaa-service/app/main.py:847-866 | in every guarded run a reservation stays live, on its address and for its subscriber, to the end |
| `Leases.UnguardedEndsReservation` | services/aaa-service/app/workers.py:41-45 | every unguarded step leaves a reserved row that is not live |
| `Leases.FreshIsGuarded` | services/aaa-service/app/main.py:847-866 | a step on the rows as they are is guarded |
| `Leases.AllocateExact` | services/aaa-service/app/ipam.py:16-30 | the existing live lease, or the first free host, or PoolExhausted exactly when none is free; a conflict exactly when the first free host has an old row |
| `Leases.ConflictIsReleased` | services/aaa-service/app/models.py:223 | the row that blocks an insert is a released one |
| `Leases.ConflictStays` | services/aaa-service/app/ipam.py:24-29 | a conflict repeats for every subscriber without a lease in the pool, however many hosts are free |
| `Leases.LeaseStore.AllocateLease` | services/aaa-service/app/ipam.py:16-30 | the scan as a loop, with its outcome |
| `Leases.LeaseStore.ReserveIp` | services/aaa-service/app/main.py:847-859 | reserved exactly when the address is in the network, not excluded and free of other subscribers |
| `Leases.LeaseStore.ReleaseIp` | services/aaa-service/app/main.py:860-866 | ends a lease; 404 and 409 change nothing, and a reservation is never released |
| `Leases.LeaseStore.CleanupStaleLeases` | services/aaa-service/app/workers.py:37-47 | ends exactly the live unreserved leases whose session is gone, and counts them |
| `Leases.AllocationTouches` | services/aaa-service/app/ipam.py:16-30 | an allocation moves the session of one lease, or appends one, or changes nothing |
| `Leases.ReservationMeans` | services/aaa-service/app/main.py:847-859 | when a reservation is made, and the row it writes |
| `Leases.ReleaseMeans` | services/aaa-service/app/main.py:860-866 | a release ends the lease of the tenant unless it is a reservation, and touches nothing else |
| `Leases.CleanupMeans` | services/aaa-service/app/workers.py:37-47 | a lease ends exactly when it is live, not reserved, and has a session that is not alive; all others stay as they are |

## Left out

- HTTP routes, permissions, request schemas apart from the invoice totals, ORM mappings, and the Redis, RabbitMQ, RADIUS
  and RouterOS clients. Redis is available or not for the life of a lock; the broker is a set that may redeliver.
- Secrets passed to the router while a plan is applied, the list of summaries, and the parsing of assignment ids as UUIDs.
- Apply.VerifyNasConfiguration: a snapshot keeps the router state itself, which has no secret-shaped field to sanitize; its
  hash and source label are left out.
- Invoices.InvoiceDesk.CreateInvoice: does not create the billing schedule that a first invoice with a period end brings,
  because the billing theorems fix their schedules at the start.
- Assignments given as dictionaries and desired states with missing keys: every field is present.
- Text outside ASCII: digits, white space and case folding.
- `rollback_nas_configuration`, the health checks, policy layering, session reconciliation and import of invoices.
- Case folding and SHA-256 in `Sanitize` are parameters; event keys made by hashing are taken to be injective, and a
  supplied key is taken to differ from every digest.
- The order in which sets are iterated, so drift items from managed addresses have no fixed order.
- Session status and statistics other than the counters: a late interim packet may reactivate a stopped session.
- Broker messages that do not parse, and event types a consumer ignores.
- Refreshing a lock by its own owner in the interleaved model, and a Redis outage during a lease.
- Liveness of locked jobs and of the outbox.
- A release of a job's lock that itself fails; the effect is that of a crash before the unlock step.
- Encryption is symbolic. A configuration run that writes secrets during an open rotation is not modelled.
- Payments and fees below one cent, the wording of line items, currencies, and changes of a schedule's plan or cycle.
- Invoice numbers from billing are pairs of account code and day; numbers entered by hand are taken to differ from them.
- The billing-run row, and changes of plans' tenants.
- Leases.ExistingLease: takes the first of several matching live leases, because the query fixes no order.
- Addresses are numbers; text forms, and excluded addresses that are not in canonical form, are not modelled.
