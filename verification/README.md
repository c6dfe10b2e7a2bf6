# LedgerGuard verification

A Dafny model of the parts of LedgerGuard that decide whether a payment problem is reported, and proofs about them.
LedgerGuard compares Stripe payments with WooCommerce orders. Facts arrive over two scan protocols, are kept as
versioned projections, and a deterministic engine turns a snapshot of them into findings that live through a state
machine. `dafny verify dfyconfig.toml` checks everything.

| files | what they model |
|---|---|
| `EngineSpec`, `Engine` | the reconciliation engine: an order-free specification over sets, and the four imperative passes that compute it |
| `EngineMeaning`, `EngineReports`, `EngineVerdict` | what the rules say of payments, orders and refunds one by one, and that an evaluation reports, blocks and warns of exactly that |
| `EngineLemmas`, `EngineProperties`, `EngineKeys`, `EngineConservation`, `EngineExample` | why reading the growing blocked set is harmless; order independence; what a report may name; distinct keys; conservation of money; a snapshot that shows a limit |
| `Findings`, `FindingRuns`, `FindingStates` | the finding lifecycle, and its properties over every run of reconciliations and operator actions |
| `Projections`, `Intervals` | the versioned projection store with its savepoint, and coverage intervals |
| `WooBatches`, `WooServer`, `WooRuns`, `WooRecords` | the server half of the shop scan, over every sequence of requests, and what one page does |
| `Plugin`, `Paging` | the client half, and the pages of one scan over every run of retries |
| `WooProtocol`, `WooArrival` | both halves joined by a network that loses, repeats, delays and reorders; what has arrived when a scan is finished |
| `StripeWorker`, `StripeRuns`, `StripeCoverage`, `StripeTokens`, `StripeReceipts`, `StripeSteps`, `StripeIncidents` | the outbox worker: phased scans, webhook receipts, savepoints, retries, dead letters, coverage and token rotation; runs in which coverage goes wrong |
| `Currency`, `Money`, `Extractor` | money arithmetic on both sides of the protocol |
| `Maintenance` | the erasure order of a tenant's tables |
| `Domain`, `Ordering`, `Wrappers` | the snapshot types, sorted listings of sets, options and results |

Conventions. Times are whole seconds. Code that updates rows in place is a class whose methods are proved equal to a
function of the old state (`Answer`, `Received`, `Settled`, `Delivered`, ...); the lemmas are about those functions and
about all finite sequences of steps. `transaction.atomic()` is a copy of the fields that a failure restores. Canonical
JSON and SHA-256 are one codec, assumed injective (`Codec.Faithful`); signatures are assumed to verify. Clocks, generated
identifiers, the shop's orders and the answers of Stripe are parameters. The scan protocol assumes nothing about either
clock; claims about Stripe coverage assume a clock that does not run backwards.

What the proofs found, each as an exact condition, with an input or a run that shows it:

- PI-001, PI-003, PI-004 and PI-005 are emitted before an order's refunds are examined. They name an order that is
  blocked in the same evaluation exactly when its refunds then stop it (`NoBlockedPaymentReported`,
  `StoppedOrderReported`; a snapshot that can be constructed, in `BlockedOrderIsReported`). No blocked payment is ever named, and the other
  financial rules name no blocked identity.
- With trusted data and every rule enabled, an evaluation is silent about a Stripe order, and does not block it, exactly
  when the order's money and status agree (`SilenceIsAgreement`). The other payments of an order that shares one payment
  with another order are neither blocked nor reported (`PaymentBlockedIff`).
- The cap of fifteen minutes on the backoff is never reached: the eighth failure ends a row, and the seventh waits 128
  seconds (`RetryWaits`).
- A newer revision whose content equals the projected one is not stored. When a revision names one observation, the
  newest one is therefore projected in the end, in every order of delivery and however often each is repeated, exactly
  when no older one has its content (`DeliveryOrderIrrelevantIff`; two orders in `DeliveryOrderMatters`).
- The contiguity test is one-sided. Coverage stays the union of the windows that were scanned exactly when each
  advancing window also reaches back to what was covered (`ExtensionIsUnionIff`, `CoverageIsUnionIff`; a run in
  `EarlierWindowLeavesGap`). Plugin and server together always meet that while neither clock runs backwards, however
  pages are delayed (`WooProtocol.CoverageIsUnion`).
- If reading an order throws while a page is being filled, the records gathered for that page are dropped from the scan
  (`ThrowLosesGathered`). A finished scan has carried all facts exactly when no order threw while its page had records
  (`ScanDeliversEveryFact`, and up to the server's pages `FinishedScanArrived`). Orders may change meanwhile: none is
  read twice, so each counts as it was read (`ShopWasRead`).
- What was read once can be taken back from a projection in one way only: an older observation of other content arrives
  late, and the projection is of the same content at a still older revision (`ReflectionStaysIff`). Reads of Stripe
  cannot do that while the clock does not run backwards (`WhatWasReadIsReflected`).
- A full shop scan begun more than 35 days after the covered interval ends cannot advance coverage, and the plugin then
  resends its final page without end, because an acknowledged page resets the count of attempts (`ScanAdvancesIff`,
  `GapStops`, `StuckUntilRetry`; a run in `StuckHappens`). A retry starts another full scan that does not
  reach back either, and beyond the server's own limit of 36 days nothing changes the coverage again
  (`WooProtocol.GapNeverCloses`). On the Stripe side a gap of more than 30 days is never closed, by a repair scan either
  (`StripeCoverage.GapNeverCloses`; a run in `GapHappens`).
- `docs/architecture.md:23` says that a conflicting revision invalidates coverage. The mark that `upsert` makes is taken
  back by the caller's savepoint (`UpsertOrRollBack`). For the shop the scan's failure flag has that effect all the same
  (`ConflictInvalidatesCoverage`). For Stripe the cursors lose their completeness exactly when the row has used its last
  attempt (`ConflictDropsCompleteIff`; a run that keeps them complete in `ConflictKeepsComplete`). A Stripe revision is
  the time of the read, so a conflict takes two reads of one resource at one instant, and none happens while each read
  comes after the one before (`ReadsConflictIff`). The source spaces the requests of a connector at least 200 ms apart
  (`modules/connectors/stripe.py:219-225`) and its clock counts microseconds, so two reads share an instant only if its
  clock stands still or is set back; the whole seconds of this model make that look likelier than it is.

## Model

| member | source | states |
|---|---|---|
| Engine.Evaluate | packages/reconciliation_core/engine.py:28-318 | the imperative evaluation, with its growing blocked set, tables and early exits, returns for every snapshot exactly the result or error of the order-free specification |
| Engine.Reconciliation.MatchPass | packages/reconciliation_core/engine.py:113-159 | after the match loop the tables, claims, blocked identities and PI-010 proposals are those of the specification |
| Engine.Reconciliation.ClaimPass | packages/reconciliation_core/engine.py:161-172 | the claim loop blocks exactly the payments that several orders claim, with their orders |
| Engine.Reconciliation.OrderPass | packages/reconciliation_core/engine.py:174-297 | the per-order loop, reading the blocked set while it grows, adds what the specification decides from the set fixed after the claim loop |
| Engine.Reconciliation.PaymentPass | packages/reconciliation_core/engine.py:299-315 | the same for the payments that no order claims |
| Engine.Reconciliation.Emit | packages/reconciliation_core/engine.py:53-80 | a proposal is added exactly when its rule is enabled, with sorted distinct identities, key, severity and readiness |
| EngineLemmas.SharedPaymentBlocks | packages/reconciliation_core/engine.py:161-164 | a payment in the groups of two matched orders blocks both orders |
| EngineLemmas.ExaminedDisjoint | packages/reconciliation_core/engine.py:161-189 | two different orders that are still examined name no common identity |
| EngineLemmas.GrowthIrrelevant | packages/reconciliation_core/engine.py:174-189 | whatever other orders have blocked by then, the membership tests of an order's turn decide as on the set before the loop |
| EngineLemmas.UnclaimedUntouched | packages/reconciliation_core/engine.py:299-304 | an unclaimed payment is blocked neither by any order nor by another unclaimed payment |
| EngineProperties.AnswerOrderFree | packages/reconciliation_core/engine.py:43-318 | snapshots that are permutations of each other have the identical evaluation: proposals, evidence, rules, blocked, warnings and digest |
| EngineProperties.EmissionOrigin | packages/reconciliation_core/engine.py:131-312 | every proposal comes from a mismatched order, a contested payment, an examined order or an unmatched payment |
| EngineProperties.BlockedForOrder | packages/reconciliation_core/engine.py:174-274 | an examined order that is not held back is blocked in the end exactly when its refunds stop it, and none of its payments is |
| EngineProperties.NoBlockedPaymentReported | packages/reconciliation_core/engine.py:210-312 | a financial proposal names a blocked identity only if its rule is PI-001, PI-003, PI-004 or PI-005 and the identity is the order that its refunds stopped |
| EngineProperties.StoppedOrderReported | packages/reconciliation_core/engine.py:246-274 | conversely, every proposal about an order stopped by its refunds names that blocked order |
| EngineProperties.ReportedPaymentsUnblocked | packages/reconciliation_core/engine.py:316-318 | the same for the proposals and blocked identities that an evaluation returns |
| EngineProperties.EvaluatedRulesGate | packages/reconciliation_core/engine.py:89-97 | with stale coverage only PI-009 is evaluated, without a verified link only PI-009 and PI-010, and never a disabled rule |
| EngineKeys.EmissionsDiffer | packages/reconciliation_core/engine.py:113-315 | no two proposals of one evaluation share rule and identities |
| EngineKeys.FindingKeysDistinct | packages/reconciliation_core/engine.py:58-59 | the keys of the returned proposals are pairwise distinct, so the final sort has no ties |
| EngineConservation.DuplicateConservation | packages/reconciliation_core/engine.py:192-212 | for a corrected duplicate, receipts less reversals are what exactly one retained payment received, and every other receipt was returned in full in its own unit |
| EngineConservation.RefundsPartition | packages/reconciliation_core/engine.py:234-244 | reversals and counted refunds are disjoint, together are the group's succeeded Stripe refunds, and their sums add up |
| EngineExample.BlockedOrderIsReported | packages/reconciliation_core/engine.py:213-226 | a snapshot, within the bounds that its parts are constructed with, whose evaluation proposes PI-003 about an order and lists that order as blocked |
| EngineConservation.ReversalsBalance | packages/reconciliation_core/engine.py:193-205 | the refunds of any set of compensated payments sum to what those payments received |
| EngineMeaning.ClearIs | packages/reconciliation_core/engine.py:116-135 | an order is not conflicting exactly when every identifier leads to one and the same payment, that payment hints at no other order or store, and no hint is ambiguous |
| EngineMeaning.UntangledIs | packages/reconciliation_core/engine.py:161-184 | nothing of a linked order is blocked by the matching exactly when none of its payments is another order's as well or mentioned by an order that is not clear |
| EngineMeaning.StageIs | packages/reconciliation_core/engine.py:255-274 | which check ends the turn of an order that can be judged, said of its refunds one by one |
| EngineReports.OrderReports | packages/reconciliation_core/engine.py:211-297 | the reports about one order, with subject, amount at risk, confidence and time, are exactly those that the conditions of PI-001 and PI-003 to PI-008 call for |
| EngineVerdict.ReportsAre | packages/reconciliation_core/engine.py:28-318 | the same for an evaluation as a whole: a report is made if and only if its rule is evaluated and the rules, said without the engine's functions and constants, call for it |
| EngineVerdict.ReportMeans | packages/reconciliation_core/engine.py:211-297 | a report of PI-001 or PI-003 to PI-008 is about one order of the snapshot of which the rule is true (PI-006: nothing refunded by the shop and a positive sum of refunds less reversals; PI-007: that sum is zero though the shop refunded or says so; PI-008: the sums differ, or a unit does), and its evidence holds that order's payments and refunds |
| EngineVerdict.SilenceIsAgreement | packages/reconciliation_core/engine.py:28-318 | with trusted data and all rules enabled no report names a Stripe order and it is not blocked, if and only if it can be judged and its money and status agree |
| EngineVerdict.BlockedAre | packages/reconciliation_core/engine.py:113-316 | the blocked identities are exactly the Stripe orders that cannot be judged and the payments that are disputed, found by a garbled order, held back with theirs, or uncovered on their own |
| EngineVerdict.PaymentBlockedIff | packages/reconciliation_core/engine.py:161-184 | so a payment of an order that shares another payment is not blocked for it |
| EngineVerdict.WarningsAre | packages/reconciliation_core/engine.py:178-315 | the warnings are exactly those of the five conditions, said of orders and payments one by one |
| EngineVerdict.ProposalsStamped | packages/reconciliation_core/engine.py:53-80 | key, sorted identities, severity, readiness, policy version and coverage of every proposal |
| EngineVerdict.RulesEvaluated | packages/reconciliation_core/engine.py:82-97 | a rule is evaluated if and only if it is enabled and the freshness of the four sources and the link permit it |
| EngineVerdict.EvaluatesIff | packages/reconciliation_core/engine.py:28-43 | a snapshot has an evaluation if and only if its identities are unique, its namespaces and mode fit, and no trusted refund difference exceeds the largest amount |
| EngineVerdict.DigestIdentifies | packages/reconciliation_core/engine.py:43-46 | under an injective hash two evaluations share a digest only if their snapshots are permutations |
| Findings.FindingService.Observe | modules/findings/service.py:200-261 | a proposed finding is created or refreshed, opened, reopened or unsuppressed, with the event that the change calls for |
| Findings.FindingService.Sweep | modules/findings/service.py:267-292 | a finding that was not proposed restarts, continues or completes its clean period |
| Findings.FindingService.Reconcile | modules/findings/service.py:175-293 | one reconciliation maps the rows to those of the specification, and a shadow run changes none |
| Findings.FindingService.Act | modules/findings/service.py:296-333 | an operator action is refused, with the right problem and no change, or takes the specified effect on its finding only |
| FindingRuns.EventLogsSound | modules/findings/service.py:156-172 | in every run each event log is a chain from provisional to the current state, occurrences count the openings and reopenings, and a suppressed finding has an expiry |
| FindingRuns.HistoryGrows | modules/findings/service.py:255-261 | findings are never removed, and each write raises the version and extends the log |
| FindingRuns.OneActionPerVersion | modules/findings/service.py:299-302 | of the operator actions on a finding, at most one succeeds for each version |
| FindingRuns.StreakBehindCleanSince | modules/findings/service.py:270-282 | a running clean period always has an unbroken streak of calm steps behind it, begun by a reconciliation at that time |
| FindingRuns.ResolvedOnlyAfterCleanStreak | modules/findings/service.py:267-292 | a finding becomes resolved only in a non-shadow reconciliation at least five minutes after one that began a streak evaluating its rule, not proposing it and blocking none of its identities, with no operator resolution between; PI-009 needs moved coverage too |
| FindingRuns.StreakRunsAreTrusted | packages/reconciliation_core/engine.py:89-97 | no reconciliation with stale coverage or an unverified link can belong to the streak of a PI-001 to PI-008 finding |
| FindingStates.ReadyIsActive | modules/findings/service.py:235-249 | in every run, after a reconciliation that proposes a finding and says it is ready, the finding is not provisional, not resolved and not suppressed beyond its expiry |
| FindingStates.OnlyTransitions | modules/findings/service.py:235-333 | in every run a finding opens from provisional, reopens or leaves an expired suppression only in a reconciliation that proposes it as ready, is resolved only where it is not proposed, and otherwise changes state only by acknowledgement or suppression |
| FindingStates.CalmResolves | modules/findings/service.py:267-292 | the converse of ResolvedOnlyAfterCleanStreak: a reconciliation that goes on with a streak begun at least five minutes before leaves the finding resolved, for PI-009 if the boundaries moved |
| FindingStates.ProposedIsCarried | modules/findings/service.py:200-231 | a proposed finding carries the evidence, risk, confidence and times of a proposal of that reconciliation, and a new one its subject |
| FindingStates.ProposedIsLogged | modules/findings/service.py:233-261 | the event, the occurrence, the version and the cleared fields that a proposal leaves, by the state before it and the change of evidence |
| FindingStates.AcceptsIff | modules/findings/service.py:299-323 | an action is accepted if and only if its version is current and its own conditions on state, note and expiry hold |
| FindingStates.ActedState | modules/findings/service.py:304-333 | an accepted action leaves that state, expiry, clean period, version and event, and every other finding alone |
| Projections.ProjectionStore.Upsert | modules/ingestion/service.py:45-93 | an upsert raises exactly on an equal revision with other content, having stored the observation and marked every cursor of the connector incomplete; otherwise it stores as specified, says whether it overwrote and leaves the cursors |
| Projections.ProjectionStore.UpsertOrRollBack | modules/ingestion/service.py:160-175 | inside a savepoint a conflict leaves every row and every cursor as it was |
| Projections.CallsSound | modules/ingestion/service.py:45-93 | after any calls the projection has the greatest stored revision and is of the only observation at that revision |
| Projections.StoredSound | modules/ingestion/service.py:65-93 | one call keeps that, drops no observation, and an overwrite strictly raises the revision |
| Projections.SuccessTimeIsFirst | modules/ingestion/service.py:76-77 | a payment's success time stays the revision of its first accepted succeeded observation |
| Projections.ObservationsAre | modules/ingestion/service.py:51-65 | after any calls the stored observations are exactly those delivered while other content was projected at another revision, late ones included |
| Projections.OverwriteKeeps | modules/ingestion/service.py:73-93 | an overwrite raises the version, takes the given success time and keeps the columns that the new content lacks; no other call changes the projection |
| Projections.DeliveryOrderIrrelevantIff | modules/ingestion/service.py:51-72 | when a revision names one observation, the newest one is projected in the end in every order of delivery, with any repetitions, if and only if no older one has its content |
| Projections.ReflectionStaysIff | modules/ingestion/service.py:51-72 | an observation that its projection reflects, by equal content or a revision not older, stays reflected exactly unless another of different content, older than it, overwrites a still older projection |
| Projections.DeliveryOrderMatters | modules/ingestion/service.py:51-52 | two deliveries of the same observations that end at different revisions |
| Intervals.ExtensionIsUnionIff | modules/ingestion/service.py:230-242 | after the contiguity test, extending keeps the interval the union of the windows if and only if the new window reaches back to it |
| WooServer.Connector.AcceptRecords | modules/ingestion/service.py:157-185 | the record loop with its savepoints leaves the projections, results and failure flag of the specification |
| WooServer.Connector.AcceptBatch | modules/ingestion/service.py:122-227 | page replay, conflicts, window and sequence checks, scan switch and coverage advance, for every state and envelope |
| WooServer.Connector.Receive | modules/connectors/views.py:162-169 | a batch request is answered from its receipt when repeated, other bytes under its id conflict, a request beyond the minute's quota is refused, and a failure changes nothing |
| WooRecords.PageStores | modules/ingestion/service.py:157-185 | a newly computed page reflects each record that it did not reject under the kind order or woo_refund by its own kind, unless an older one of its object follows in it, and touches no other object |
| WooRecords.ResultMeans | modules/ingestion/service.py:159-185 | a record is rejected exactly when it does not parse, is over two minutes ahead or conflicts at its turn, and accepted exactly when it is new, or newer with other content |
| WooRecords.RefusedIff | modules/connectors/views.py:153-169 | when each of the six refusals of a request happens, in the order of the checks |
| WooRecords.CoverageLeft | modules/ingestion/service.py:188-208 | an advancing page extends both cursors, observed at its own time; any other leaves interval and time, and completeness unless it takes over the cursor or ends a failed scan |
| WooRecords.SequenceLeft | modules/ingestion/service.py:133-157 | the page, window, failure flag and scan that a computed page leaves on the cursor, and when it advances |
| WooRecords.AnswerLeaves | modules/connectors/views.py:162-169 | an answer names the request and the time and leaves receipt, page and count; a refusal or a repeated answer leaves everything as it was |
| WooRuns.AdvancesOnlyAfterWholeScan | modules/ingestion/service.py:133-211 | in every run a newly computed page reports an advance exactly when it is final, contiguous, and no record of pages 1 to n of its scan was rejected; those pages are the last ones computed, in order, with one window and one final flag |
| WooRuns.EachPageComputedOnce | modules/ingestion/service.py:123-128 | no page of a scan is ever read twice |
| WooRuns.CursorsAgree | modules/ingestion/service.py:190-208 | the orders and refunds cursors carry the same interval, time and completeness, and completeness excludes a scan in progress |
| WooRuns.CoverageIsUnionIff | modules/ingestion/service.py:188-205 | for every run: in each of its states the covered interval is exactly the union of the windows of the scans that advanced it, if and only if each advancing window reached back to what was covered before it |
| WooRuns.EarlierWindowLeavesGap | modules/ingestion/service.py:189-192 | a run of requests after which an instant is covered that no scan looked at |
| WooRuns.ConflictInvalidatesCoverage | modules/ingestion/service.py:173-177 | a record that conflicts when its turn comes is rejected, and neither cursor is complete again until a later scan advances coverage |
| WooRuns.ProjectionsAreOfPages | modules/ingestion/service.py:159-172 | in every run the projections are what reading each computed page once, in order, makes of them |
| WooRuns.LostAnswerIsRepeated | modules/ingestion/service.py:123-128 | once a page was answered, its content is answered alike under any new request id at any later time, unless the quota refuses it, changing only the receipts and the count of requests |
| Plugin.Client.StartScan | plugins/ledgerguard-woocommerce/includes/class-ledgerguard-plugin.php:226-268 | a scan starts only if none is under way and at most 50,000 ids match, over the window that cursor, clock and repair flag give |
| Plugin.Client.Prepare | plugins/ledgerguard-woocommerce/includes/class-ledgerguard-plugin.php:284-314 | the filling loop, the carry, the final flag and re-signing leave the saved scan of the specification, and send exactly what it holds |
| Plugin.Client.Settle | plugins/ledgerguard-woocommerce/includes/class-ledgerguard-plugin.php:315-347 | the checks of an acknowledgement, and what an accepted, refused or missing one does to scan, attempts and cursor |
| Plugin.StartsOver | plugins/ledgerguard-woocommerce/includes/class-ledgerguard-plugin.php:236-264 | the window that a new scan looks at, by cursor, repair flag and clock, and the limit of its orders |
| Plugin.SentIsFresh | plugins/ledgerguard-woocommerce/includes/class-ledgerguard-plugin.php:309-314 | what is sent was signed within the last four minutes; a saved page keeps its content, and its request id exactly when it was signed that recently |
| Plugin.AnswerSettles | plugins/ledgerguard-woocommerce/includes/class-ledgerguard-plugin.php:315-347 | when an answer ends the scan, turns its page, restarts its attempts or costs one |
| Plugin.FillGathers | plugins/ledgerguard-woocommerce/includes/class-ledgerguard-plugin.php:289-293 | filling a page moves facts from the unread ids to the page without loss, in order |
| Paging.ScanDeliversEveryFact | plugins/ledgerguard-woocommerce/includes/class-ledgerguard-plugin.php:285-333 | in every run all acknowledged pages but the last hold exactly 100 records, exactly the last is final, and their number is bounded; when the scan is over they concatenate to the facts of the ids in order if and only if no order threw while its page had records |
| Paging.ShopWasRead | plugins/ledgerguard-woocommerce/includes/class-ledgerguard-plugin.php:289-293 | in every run over distinct ids, whatever changes in between, all that the pages read is what one shop holds |
| Paging.PagingEnds | plugins/ledgerguard-woocommerce/includes/class-ledgerguard-plugin.php:285-333 | a scan whose pages are stored finishes within one page more than its hundreds of facts |
| Paging.ThrowLosesGathered | plugins/ledgerguard-woocommerce/includes/class-ledgerguard-plugin.php:286-292 | when reading an order throws, exactly the records gathered for the page are lost, so nothing is lost if and only if there were none |
| WooProtocol.NoConflicts | modules/connectors/views.py:162-166 | no request of the plugin, however repeated or reordered, meets a request-id or page-content conflict |
| WooProtocol.SentInTimeIsAccepted | plugins/ledgerguard-woocommerce/includes/class-ledgerguard-plugin.php:309-314 | in every run whose shop clock does not run backwards, a request delivered within a minute of its sending is never refused as expired |
| WooProtocol.CursorBehindCoverage | plugins/ledgerguard-woocommerce/includes/class-ledgerguard-plugin.php:323-327 | the plugin's cursor never exceeds what the server covers |
| WooProtocol.PagesAppliedOnce | plugins/ledgerguard-woocommerce/includes/class-ledgerguard-plugin.php:309-314 | the projections are what reading each computed page once makes of them, and no page of a scan is computed twice, under all the request ids it was signed with |
| WooProtocol.ScanAdvancesIff | modules/ingestion/service.py:188-205 | a scan's final page advances coverage exactly when none of its records was rejected and it began from the cursor, or nothing was covered, or coverage reaches the last 35 days |
| WooProtocol.CoverageIsUnion | modules/ingestion/service.py:188-205 | while neither the shop's clock nor the server's runs backwards, in every state of every run an instant is covered if and only if a whole scan looked at it, also when pages of abandoned scans arrive late |
| WooProtocol.GapStops | plugins/ledgerguard-woocommerce/includes/class-ledgerguard-plugin.php:237-239 | a full scan begun more than 35 days after what is covered gets stuck at its final page |
| WooProtocol.StuckUntilRetry | plugins/ledgerguard-woocommerce/includes/class-ledgerguard-plugin.php:322-347 | such a scan never finishes and its cursor never moves, in any continuation without a manual retry |
| WooProtocol.StuckHappens | plugins/ledgerguard-woocommerce/includes/class-ledgerguard-plugin.php:323-325 | a run, under clocks that do not run backwards, that ends in such a scan |
| WooProtocol.GapNeverCloses | modules/ingestion/service.py:131-132 | once what is covered ends more than 36 days before a request arrives, no continuation changes it, manual retries included |
| WooArrival.FinishedScanArrived | plugins/ledgerguard-woocommerce/includes/class-ledgerguard-plugin.php:322-327 | in every run with whatever scans before, when a scan is finished by an answer that coverage advanced, the records of the pages that the server computed for it are the facts of the scan's orders as it read them, all of them, in order, each once, if and only if no order threw while its page had records |
| WooArrival.FinishedScanReflected | modules/ingestion/service.py:157-211 | in every run, when a page advances coverage every record of its scan is reflected, an order under the kind order and any other under woo_refund, if none of one object is older than one before it |
| WooArrival.FinishedScanIsProjected | plugins/ledgerguard-woocommerce/includes/class-ledgerguard-plugin.php:322-327 | so a finished scan's orders, with all their facts as they were read, were in the projections when its last page was computed |
| WooProtocol.StuckStays | plugins/ledgerguard-woocommerce/includes/class-ledgerguard-plugin.php:322-346 | each acknowledged resend of it sets the attempts back to one, so resending is not given up |
| StripeWorker.Worker.PollConnector | modules/connectors/stripe.py:383-404 | a poll starts one scan with its first row, unless one is pending, over the window that cursor and repair flag give |
| StripeWorker.Worker.TurnPage | modules/connectors/stripe.py:407-481 | one page stores its facts, moves phase or provider cursor, completes the scan with its coverage, or fails, and enqueues the next page |
| StripeWorker.Worker.Process | modules/connectors/stripe.py:371-380 | an unsettled receipt is read and stored and becomes normalized, or fails; a settled one is left alone |
| StripeWorker.Worker.AdvanceCoverage | modules/ingestion/service.py:230-242 | both cursors are extended by the window, unless either has a gap before it |
| StripeWorker.Worker.Refresh | modules/connectors/stripe.py:183-199 | an expired pair is exchanged and stored, and every failure to do so is permanent |
| StripeWorker.Worker.RunRow | workers/runtime.py:179-233 | for pages of pending scans and unsettled receipts alike, the first transaction commits rotated credentials or the suspension even when the handler's savepoint rolls back |
| StripeWorker.Worker.RecordFailure | workers/runtime.py:241-281 | the second transaction counts the attempt, delays or dead-letters the row, fails its scan or receipt, drops completeness, suspends and fails the connector's pending scans |
| StripeWorker.Worker.RunMessage | workers/runtime.py:174-285 | one delivery of a row is the composition of the two, and does nothing for a finished or future row |
| StripeSteps.PollWindow | modules/connectors/stripe.py:390-404 | a repair and a first poll look at thirty days; any other starts half an hour before the covered end, but no earlier |
| StripeSteps.PageTurnsIff | modules/connectors/stripe.py:436-477 | a page that was read is turned unless its listing stalls, the scan has 10,000 pages, or its window does not reach what is covered |
| StripeSteps.TurnedPage | modules/connectors/stripe.py:436-481 | the phase, cursor, completion, coverage with its time, and next row of a turned page |
| StripeSteps.RetryWaits | workers/runtime.py:245-251 | a failed row is dead exactly when the failure is permanent or its eighth; otherwise it waits at least its backoff and at least as long as the provider asked |
| StripeSteps.FailureRecorded | workers/runtime.py:252-281 | what a recorded failure does to scans, receipts, completeness and connector, by its permanence and the attempts of the row |
| StripeSteps.DeliveryEnds | workers/runtime.py:184-222 | a delivery that does not fail marks its row done, and one of a row that is finished or not due does nothing |
| StripeSteps.ScheduledRow | workers/runtime.py:98-106 | each five minutes get one row, the first of a day a repair |
| StripeSteps.WebhookReceived | modules/connectors/views.py:285-299 | a webhook leaves a pending receipt with a row, or an ignored one without |
| StripeSteps.ExchangeMeans | modules/connectors/stripe.py:183-199 | a pair is exchanged only when its time is over, is good for 55 minutes, and every failure is permanent |
| StripeReceipts.ReceiptFollowsRow | workers/runtime.py:261-264 | in every run a receipt is failed if and only if its row was dead-lettered, ignored if and only if it has none, and a row is done only if it is normalized or the organization was deactivated |
| StripeReceipts.NormalizedIsReflected | modules/connectors/stripe.py:371-380 | in every run whose clock does not run backwards a normalized receipt was read by a delivery of its row that stored all its facts, and those are reflected ever after |
| StripeRuns.OneLiveRowPerScan | modules/connectors/stripe.py:397-404 | in every run, with receipts that may suspend the connector at any time, every pending scan of an active organization has exactly one live row, keyed by its current page count |
| StripeRuns.OnePendingScan | modules/connectors/stripe.py:388-389 | a connector never has two pending scans |
| StripeRuns.WorkMakesProgress | workers/runtime.py:245-272 | a delivery that works on a scan ends it, turns its page or uses one of eight attempts: pages left and attempts left go down lexicographically |
| StripeRuns.EveryScanLeavesPending | modules/connectors/stripe.py:475-481 | no scan stays pending for 80,008 deliveries that work on it |
| StripeCoverage.CompleteScanSawEverything | modules/connectors/stripe.py:416-474 | a complete scan read four whole listings, each resumed after its previous page, and then every batch of linked orders up to the empty one |
| StripeCoverage.TurnedSeen | modules/connectors/stripe.py:422-474 | one page keeps that account of what a scan has read |
| StripeCoverage.CoverageIsWhatScansSaw | modules/ingestion/service.py:230-242 | with a clock that does not run backwards the two cursors agree, and an instant is covered if and only if a complete scan's window holds it |
| StripeCoverage.CoverageNeverShrinks | modules/ingestion/service.py:237-238 | no step of any run takes an instant out of either covered interval |
| StripeCoverage.ConflictDropsCompleteIff | workers/runtime.py:245-273 | a delivery whose facts conflict takes back all it stored, and the cursors lose their completeness if and only if the row has used its last attempt |
| StripeCoverage.ReadsConflictIff | modules/connectors/stripe.py:365 | in every run whose clock does not run backwards, what a delivery reads conflicts if and only if some fact's projection has the very instant of its read and other content when its turn comes; never while each read comes after the one before |
| StripeCoverage.WhatWasReadIsReflected | modules/connectors/stripe.py:416-474 | in every run whose clock does not run backwards, each fact of each page that a scan has turned is reflected in its projection |
| StripeIncidents.ConflictKeepsComplete | modules/ingestion/service.py:67-71 | a run in which a page lists a payment twice, both reads fall on one instant of a clock that stands still and differ, and both cursors stay complete |
| StripeIncidents.GapHappens | modules/connectors/stripe.py:390-396 | a run after which coverage can never be extended again |
| StripeCoverage.LastPageCompletesIff | modules/ingestion/service.py:235-236 | the delivery that finds the empty batch completes the scan exactly when its window starts within what is covered |
| StripeCoverage.GapNeverCloses | modules/connectors/stripe.py:390-396 | once coverage ends more than 30 days before any window that can start, it never changes again |
| StripeTokens.ActiveTokensAreCurrent | modules/connectors/stripe.py:183-199 | in every run of scan pages and receipts an active connector stores the pair that the provider issued last, and any other stores none |
| StripeTokens.RotationSurvivesFailure | workers/runtime.py:206-233 | after a rotation a failing handler loses its own writes and keeps the new pair, or suspends the connector if the failure is permanent |
| StripeTokens.FailedRefreshSuspends | workers/runtime.py:211-231 | a refused, lost or unusable refresh suspends and clears the credentials in the same commit, and the delivery leaves no scan pending |
| Money.DecimalRoundTrip | packages/reconciliation_core/money.py:30-46 | printing any valid amount and parsing it gives the amount back |
| Money.WooParsesIff | packages/reconciliation_core/money.py:37-46 | a text parses to an amount if and only if it has at most 24 characters, writes a plain number with no more fraction digits than the currency, and counts that valid amount |
| Money.StripeParsesIff | packages/reconciliation_core/money.py:49-57 | a Stripe integer parses to an amount if and only if the amount is valid, in that currency, and the integer counts it, in hundredths for the two legacy currencies |
| Extractor.SumRefunds | plugins/ledgerguard-woocommerce/includes/class-ledgerguard-extractor.php:90-105 | the sum fails as specified, or renders the exact total without trailing zeros within the length the server accepts |
| Extractor.AmountAddsIff | plugins/ledgerguard-woocommerce/includes/class-ledgerguard-extractor.php:94-101 | an amount can be added if and only if it writes a plain number with at most twelve digits before the point and zeros after the third digit behind it, and adds exactly what it says |
| Extractor.TotalIff | plugins/ledgerguard-woocommerce/includes/class-ledgerguard-extractor.php:93-104 | the total is the sum of the amounts, and fails exactly on one that cannot be added or beyond the largest integer |
| Extractor.ServerAcceptsIff | packages/reconciliation_core/money.py:37-46 | of the amounts the plugin can add up, the server accepts exactly those with no more fraction digits than the currency allows |
| Extractor.RefundTotalsAgree | plugins/ledgerguard-woocommerce/includes/class-ledgerguard-extractor.php:90-105 | when no amount has more fraction digits than the currency allows, the server accepts them all and its parse of the plugin's total is the sum of its parses |
| EngineConservation.ExtractionIsConsistent | packages/reconciliation_core/engine.py:271-274 | an order's refunded total and its refund facts, parsed from one extraction, never stop the evaluation as inconsistent |
| Maintenance.TenantModels | modules/accounts/maintenance.py:49-70 | the loop fails exactly when the references have a cycle, and else returns a permutation in which references come first |
| Maintenance.TenantStore.EraseTenant | modules/accounts/maintenance.py:73-96 | erasure removes exactly the tenant's rows of those tables and counts them, unless a replayed receipt is another tenant's, deletion was not requested or the references have a cycle: then it removes none |
| Maintenance.ErasesIff | modules/accounts/maintenance.py:74-79 | erasure goes ahead exactly for a matching receipt or none, an inactive organization with a deletion request, and references without a cycle |
| Maintenance.SurvivesIff | modules/accounts/maintenance.py:84-87 | a row survives, unchanged, unless it is the tenant's and of an erased model |
| Maintenance.ErasedAreCounted | modules/accounts/maintenance.py:84-87 | the counts add up to the rows that are gone |
| Maintenance.EveryDeleteStepIsSafe | modules/accounts/maintenance.py:84-87 | after any number of delete steps no remaining row names a deleted one |

## Left out

- HTTP views other than the receipt step of signed batch requests, dashboards, templates, exports and the browser code.
- WooServer.Connector.Receive: heartbeats and key rotation, which share its receipts and its quota, are not modelled; the plugin gives each request a new id, and a refused request changes nothing.
- Network and cloud calls, except as steps that may succeed, fail or lose their answer; cryptography, except as assumed sound.
- Row-level security, roles, login, migrations, configuration, JSON schema validation, metrics, logs and notification texts.
- Retention, re-pairing, pairing claims, the quota of webhooks and the plugin's scan lock and mode check.
- How Stripe resources are fetched and normalised: a page or a receipt gives the facts to store, or fails as a whole.
- OAuth connection and re-authorization: runs of the worker start from a connected account; disconnecting and deactivating are steps.
- StripeWorker.Worker.RunMessage: one delivery is a single step, so two workers that interleave the two transactions of one row are not modelled; reports and notifications, whose rows touch no scan or credential, are not either.
- StripeIncidents.ConflictKeepsComplete: the spacing of requests and fractions of a second are not modelled, so its run needs a source clock that stands still, or is set back, between two reads.
- StripeCoverage.CoverageIsWhatScansSaw: needs a clock that does not run backwards; with one that does, the one-sided test can leave a hole.
- Paging.ShopWasRead: needs the ids of a scan to be distinct, as those of a query are; an id that came twice could be read with different facts.
- WooArrival.FinishedScanReflected: says nothing of a scan that brings an object again with an older revision; an order and its refunds come once in a scan.
- Maintenance.TenantStore.EraseTenant: stored report files, locators and the erasure receipt that is written afterwards are not modelled.
- Finding notifications, error codes kept for display and audit rows; one store is modelled, and a finding row carries its own events.
- Building the snapshot from the database (`build_snapshot`): the engine's input is any snapshot.
- Byte-level details: request bodies are their parsed envelopes, notes are blank if they hold only ASCII blanks, and timestamps have no sub-second part or zone.
- A row that does not exist yet is modelled as its default (an empty cursor), and the interval of a cursor is one optional pair.
