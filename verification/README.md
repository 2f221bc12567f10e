# The behavior laboratory and Counterpilot, verified

This project models the append-only ledger of the behavior laboratory and the
protocols that run on it, and proves what they guarantee: over every run, for any
number of concurrent clients, and for events that arrive in any order.

## What is modelled

**The ledger** (`Ledger`). Records are chained by hash. A hash is a constructor
over the body it digests and `Genesis` is another constructor, so collision-freeness
is structural. `exclusive()` is one atomic method. The class is imperative; every
method is proved equal to a function of the records, and the functions carry the
properties: tamper evidence, and that a batch append is exactly a sequence of single
appends that either all succeed or change nothing.

**The transaction machine** (`Transitions`, `Replay`, `History`,
`TransactionMachine`, `AppendOutcomes`). Each append re-sorts and replays a transaction's whole history.
The transition table, the replay loop, the validation of a new event against history,
the worklist search and the append are modelled as the code has them. The main results
are about every run of appends: once applied an event stays applied, terminal states
absorb, only webhook events ever wait, and the snapshot does not depend on the order of
arrival.

**Webhook ingestion** (`Webhooks`, `WebhookAdapter`). Two ledgers, any number of
workers, a crash possible between any two ledger accesses, and other writers that may
append any event. At-least-once delivery has at-most-once effect, and a crashed delivery
is resumed by its redelivery.

**The laboratory** (`LabRecords`, `Laboratory`). One ledger and one clock shared by
any number of clients. A client's task makes scans of the ledger and readings of the
clock, each a step of its own, and ends in a guarded append; steps of different clients
interleave freely, guards' retries start over, clients stop anywhere. `Legality` says
what is true of each record relative to those before it, `LabFacts` and `LabSteps` prove
that every commit appends only such records, `LabRuns` lifts it to all interleavings,
and `LabTheorems`, `CampaignTheorems`, `LockboxTheorems`, `Budgets`, `Revalidation`,
`TornRead` and `UntornRuns` draw the conclusions. `ExperimentProgress`, `LabProgress`,
`ManifestProgress` and `FreezeProgress` say exactly when the operations succeed, and which
campaigns some run can still freeze; `Counting` says what the guards count, and `QuietRuns`
builds runs of one client at a time. `LabSite`, `Scheduler`, `Registry` and `Gym` are the
methods of the code in its own imperative form, with their loops and bounded retries; what
other processes do between two steps of a method is a parameter, so each contract holds
for every interference.

**Consent** (`Consent`), **the chronological splits** (`TemporalSplit`,
`PurgedSplit`), **the report's totals** (`Reports`), **calibration error and the
Pareto frontier** (`Evaluation`): loops and sorts, each proved equal to a specification
function about which the promised property is proved. `Ordering` is Python's stable
`sorted`.

## Where the code keeps less than it seems to

- **Re-validation of prospective rows can fail.** `rows()` scans assignments before
  trials (`src/behavior_lab/gym.py:168-172`). An assignment and its outcome recorded
  between the two scans leave a trial whose assignment the reader has not seen; it is
  then filed with its own times and can pass for prospective although it was assigned
  before the freeze. `TornRead.RevalidationCanFail` builds such a run;
  `Revalidation.RevalidationFailsExactly` says exactly when the error is raised; and
  `UntornRuns.UntornRunNeverFails` shows that torn refreshes are its only cause: in a run
  whose refreshes all file from consistent scans no submission ever fails. The error is
  what saves the guarantee: in every run `LockboxTheorems.ReservedCasesBornAfterFreeze`
  holds, so no case born before the freeze is ever reserved for prospective evaluation.
- **One pilot or unlabelled case blocks every later freeze.** Freezing demands a split for
  every episode and trial in the ledger (`src/behavior_lab/registry.py:287-307`), and a
  manifest files only cases that can be scored (`src/behavior_lab/gym.py:149-156`), so
  such a record stops all campaigns from freezing, for good
  (`LockboxTheorems.UnlabelledCaseBlocksFreezing`), although pilots are meant to stay in
  the ledger (`src/behavior_lab/bridge.py:77`); one is enough
  (`FreezeProgress.OneUnlabelledCaseStopsAll`). Left alone, a freeze goes through exactly
  when there is no such record and all cases are filed (`LabProgress.QuietFreeze`), and
  `FreezeProgress.FreezableExactly` says when some run can still freeze a campaign.
- **Two campaigns can be in each other's way.** The id of a split joins campaign and case
  with `_` (`src/behavior_lab/gym.py:311`, `:379`), so campaign `a` with case `b_c` and
  campaign `a_b` with case `c` share one; `ManifestProgress.SplitIdsCoincide` says exactly
  which do. A taken id makes the whole batch of a refresh fail
  (`ManifestProgress.QuietRefresh`), and keeps the second campaign from ever being frozen
  (`FreezeProgress.OverlappingCampaignNeverFrozen`, `FreezeProgress.OverlapHappens`). This
  takes a case id that ends in `_` and another's: imported ids may, drawn ones do not.
  In the same way two merchants' stores share a namespace exactly when one merchant's name
  goes on after a colon into the other's store (`Webhooks.NamespacesCoincide`).
- **Dated grants escape the closed form of consent.** A grant that carries a revocation
  date still to come sorts with the prohibitions, so one dated exactly at the time of a
  prohibition can decide after it. `Consent.DatedGrantReactivates` is an instance,
  `Consent.ActiveExactly` the exact condition, and `Consent.OpenEndedClosedForm` and
  `Consent.BackfillNeverReactivates` what holds without such grants.
- **Four guards are redundant**: a stream's next index is never taken
  (`LabTheorems.NextIndexIsFree`), no case is ever found assigned twice in a campaign
  (`LabTheorems.OneSplitPerCase`), a frozen artifact is always the one that its model's fit
  recorded (`LabProgress.FrozenIsUsable`), and the hidden budget adds nothing to the rule
  against exposing a case twice (`LabProgress.FreshCasesAreWithinBudget`).

## Model

| member | source | states |
|---|---|---|
| Ledger.TamperEvidence | src/behavior_lab/ledger.py:288-313 | Of two ledgers that pass verification, the heads are equal exactly when the ledgers are equal record for record. |
| Ledger.EditIsDetected | src/behavior_lab/ledger.py:288-313 | Replacing any record of a verified ledger and keeping its head breaks verification. |
| Ledger.VerifiedPrefix | src/behavior_lab/ledger.py:288-313 | What a verified ledger held at any earlier length was verified too. |
| Ledger.BatchRefinesSingleAppends | src/behavior_lab/ledger.py:190-245 | A batch append succeeds exactly when appending its entries one at a time does, and then leaves the same verified extension. |
| Ledger.LastMatchFinds | src/behavior_lab/ledger.py:323-328 | A search by id and type answers exactly when there is a match, and with one. |
| Ledger.LastMatchIsLast | src/behavior_lab/ledger.py:323-328 | Of several records with the id and type the search answers with the last. |
| Ledger.AppendedExactly | src/behavior_lab/ledger.py:156-188 | An append goes through exactly when the type is not blank, the chain verifies, the id is new where it must be and the guard agrees; it adds one linked record holding what was given. |
| Ledger.ImmutableLedger.VerifyRecords | src/behavior_lab/ledger.py:288-313 | One pass carrying the previous hash accepts exactly the verified chains. |
| Ledger.ImmutableLedger.AppendGuarded | src/behavior_lab/ledger.py:156-188 | Appends one sealed record, or raises the first error in the order type, integrity, duplicate id, guard, and then leaves the file alone. |
| Ledger.ImmutableLedger.AppendManyGuarded | src/behavior_lab/ledger.py:190-245 | Appends all entries chained to one another, or raises and leaves the file alone; the guard comes before the ids. |
| Ledger.ImmutableLedger.LastHash | src/behavior_lab/ledger.py:279-281 | The head names the ledger: no other verified ledger ends in it. |
| Ledger.ImmutableLedger.FindRecord | src/behavior_lab/ledger.py:323-328 | The last record of that type with that id, by one pass. |
| Ordering.SortByCorrect | src/behavior_lab/counterpilot_state/machine.py:309-309 | Sorting by key orders the input and rearranges it, no more. |
| Ordering.SortByPermutation | src/behavior_lab/counterpilot_state/machine.py:309-309 | When keys identify elements, the result does not depend on the input's order. |
| Ordering.SortByLast | src/behavior_lab/counterpilot_state/machine.py:309-309 | An element that sorts last is appended to the sorted rest. |
| Ordering.TextOrderMeans | src/behavior_lab/counterpilot_state/machine.py:309-309 | Texts are ordered by their first difference, and a prefix comes first. |
| Transitions.OneOpenReturn | src/behavior_lab/counterpilot_state/machine.py:40-62 | On every walk from the start, opened minus closed returns is 0 or 1, and 1 exactly in return_opened and return_received. |
| Transitions.PaidIsGate | src/behavior_lab/counterpilot_state/machine.py:40-62 | A walk is in a post-payment state exactly when it went through paid. |
| Transitions.MatureIsSettled | src/behavior_lab/counterpilot_state/machine.py:40-62 | A walk that matures was paid, closed every return it opened and was never cancelled; a paid walk is never cancelled. |
| Transitions.TerminalIsLast | src/behavior_lab/counterpilot_state/machine.py:56-61 | A walk stops at the first terminal state. |
| Transitions.EdgesBothWays | src/behavior_lab/counterpilot_state/machine.py:40-62 | The table lists a successor exactly where the state may be entered from there, and terminal states are exactly those without successors. |
| Transitions.WebhookStatesFollowTheOrder | src/behavior_lab/counterpilot_state/machine.py:67-79 | Webhooks report exactly the order and what can come after it, except maturity. |
| Transitions.Search | src/behavior_lab/counterpilot_state/machine.py:363-376 | On any finite graph, cyclic or not, the worklist search terminates and finds the target exactly when a path leads to it. |
| Transitions.CouldBeFutureTransition | src/behavior_lab/counterpilot_state/machine.py:363-376 | True exactly when a non-empty walk leads from the state to the target. |
| Transitions.ReachableLater | src/behavior_lab/counterpilot_state/machine.py:328-337 | A target that is no direct successor is reachable exactly by a walk of two or more steps. |
| Transitions.TerminalReachesNothing | src/behavior_lab/counterpilot_state/machine.py:363-365 | No walk leaves a terminal state, so the early exit of the search loses nothing. |
| Replay.ReplayEvents | src/behavior_lab/counterpilot_state/machine.py:308-360 | The loop computes the fold of one-event turns over the sorted events. |
| Replay.ReplaySound | src/behavior_lab/counterpilot_state/machine.py:308-360 | Applied events walk the graph and end in the reported state, pending ones are webhooks whose target lies ahead but not next, errors clash in currency or met a state with no edge to their target and, for a webhook, no path, and the three lists partition the events. |
| Replay.VerdictStands | src/behavior_lab/counterpilot_state/machine.py:312-351 | Whether an event waits is settled in its own turn: events that sort after it never change the verdict. |
| Replay.AppliedIsKept | src/behavior_lab/counterpilot_state/machine.py:308-360 | The applied list is the replay order with the other events left out. |
| Replay.FoldHasOneCurrency | src/behavior_lab/counterpilot_state/machine.py:320-327 | The currency is the first one named in replay order; applied and pending events are in it or record their conversion, and the events in error for their currency are exactly the others. |
| Replay.ClashesExactly | src/behavior_lab/counterpilot_state/machine.py:320-327 | An event is in error for its currency exactly when it clashes with the first currency named in replay order. |
| Replay.ConversionEitherWay | src/behavior_lab/counterpilot_state/machine.py:468-476 | A conversion record covers two currencies exactly when it names both, in either order. |
| History.ValidateNewEvent | src/behavior_lab/counterpilot_state/machine.py:200-218 | Rejects exactly an event that un-applies another, or that is neither applied nor a webhook left pending. |
| History.ReplayIgnoresArrivalOrder | src/behavior_lab/counterpilot_state/machine.py:308-309 | The snapshot depends on which events are stored, not on the order of their arrival. |
| History.ReplayGoesByOccurrence | src/behavior_lab/counterpilot_state/machine.py:308-309 | Replay folds over the events in any arrangement by time of occurrence, then of receipt, then event id. |
| History.ReplayOrder | src/behavior_lab/counterpilot_state/machine.py:308-309 | Replay's own arrangement is by time of occurrence, then of receipt, then event id, and holds each event once. |
| History.LatestEventIsOneTurn | src/behavior_lab/counterpilot_state/machine.py:308-360 | An event that occurred last, or at the same time was received last, or has the greater id, costs one turn of the loop on the previous snapshot. |
| History.AppliedExtends | src/behavior_lab/counterpilot_state/machine.py:200-218 | An accepted event, however early it is dated, only inserts into the applied list. |
| History.AppliedForever | src/behavior_lab/counterpilot_state/machine.py:200-218 | Between any two moments of a transaction, the earlier applied list is a subsequence of the later one. |
| History.OnlyWebhooksEverWait | src/behavior_lab/counterpilot_state/machine.py:209-218 | In every accepted history, a stored event that is not applied is a webhook event. |
| History.TerminalForever | src/behavior_lab/counterpilot_state/machine.py:200-218 | Once the replayed state is terminal, every later accepted event leaves it there. |
| History.ScanTellsState | src/behavior_lab/counterpilot_state/machine.py:200-218 | For a terminal state no webhook reports, some stored event leads to it exactly when it is the replayed state. |
| History.AppliedWalkFacts | src/behavior_lab/counterpilot_state/machine.py:40-62 | The applied events of any history keep the return balance, and a mature one was paid, settled and never cancelled. |
| History.PendingMeansAhead | src/behavior_lab/counterpilot_state/machine.py:328-337 | A stored event whose currency fits is pending exactly when it is a webhook whose target takes two or more steps from the state it met; nothing else is pending. |
| TransactionMachine.TransactionStateMachine.EventsOf | src/behavior_lab/counterpilot_state/machine.py:193-198 | One pass gives the transaction's events in ledger order. |
| TransactionMachine.TransactionStateMachine.Inspect | src/behavior_lab/counterpilot_state/machine.py:172-191 | The snapshot replayed from the transaction's stored events. |
| TransactionMachine.TransactionStateMachine.Store | src/behavior_lab/counterpilot_state/machine.py:129-168 | The outcome and the ledger left by an append: integrity, idempotency key, event id, history and record id decide, in this order. |
| TransactionMachine.TransactionStateMachine.AppendEvent | src/behavior_lab/counterpilot_state/machine.py:129-170 | As Store, with the snapshot taken after the append. |
| TransactionMachine.AppendKeepsSane | src/behavior_lab/counterpilot_state/machine.py:129-168 | An append about any transaction keeps the chain verified, records filed once under their event's id, and every transaction's history accepted. |
| TransactionMachine.AppendAddsAtMostOne | src/behavior_lab/counterpilot_state/machine.py:393-414 | An append adds at most one record, and that record holds the event appended. |
| TransactionMachine.RunKeepsSane | src/behavior_lab/counterpilot_state/machine.py:129-168 | The same over every run of appends; the ledger only grows. |
| TransactionMachine.RunKeepsTransaction | src/behavior_lab/counterpilot_state/machine.py:129-218 | For every run of appends about any mix of transactions: applied lists only gain events, in order, and terminal states absorb. |
| TransactionMachine.UnappliedIsWebhook | src/behavior_lab/counterpilot_state/machine.py:129-218 | In every ledger built by appends, an event that is not applied is a webhook event. |
| AppendOutcomes.OutcomeExactly | src/behavior_lab/counterpilot_state/machine.py:129-218 | For every ledger the machine built: an event is answered as stored exactly when it is; refused for its key or id exactly when another event of the transaction has it; refused by history exactly when an applied event would be lost or it is neither applied nor a pending webhook; and imported exactly otherwise. |
| AppendOutcomes.LedgerAfterwards | src/behavior_lab/counterpilot_state/machine.py:393-414 | Importing adds one record with the event, sealed now; every other outcome leaves the ledger alone, and a corrupt chain is refused exactly when it does not verify. |
| AppendOutcomes.NextEventIsImported | src/behavior_lab/counterpilot_state/machine.py:166-170 | A new event later than all others that leads on from the replayed state, in its currency, is imported and its target is the state. |
| AppendOutcomes.AppendStaysInTransaction | src/behavior_lab/counterpilot_state/machine.py:152-158 | An append adds its event, last, to its own transaction and nothing to any other. |
| AppendOutcomes.EventsForExactly | src/behavior_lab/counterpilot_state/machine.py:193-198 | The events of a transaction are exactly those stored under its namespace and id. |
| Webhooks.TopicsReportWebhookStates | integrations/shopify/adapter.py:847-862 | Every accepted topic reports a state that may wait for its predecessors. |
| Webhooks.TopicsExactly | integrations/shopify/adapter.py:847-862 | Each state is reported by exactly its topics, and payments and refunds by their status. |
| Webhooks.NormalizedText | integrations/shopify/adapter.py:847-848 | Dots become slashes, ASCII capitals small letters, and nothing else changes. |
| Webhooks.MachineAddsAtMostOne | src/behavior_lab/counterpilot_state/machine.py:135-168 | The transaction machine is a store of the kind the ingestion protocol needs. |
| Webhooks.RunKeeps | integrations/shopify/adapter.py:374-410 | In every interleaving with crashes, and whatever other writers append, both ledgers only grow and claims are keyed by delivery. |
| Webhooks.RunAccounts | integrations/shopify/adapter.py:374-410 | Every stored event is one a claim explains or one that some other writer brought. |
| Webhooks.BindingIsFixed | integrations/shopify/adapter.py:716-741 | A delivery id keeps the binding it was first claimed with. |
| Webhooks.AtMostOneEventPerDelivery | integrations/shopify/adapter.py:388-410 | However deliveries are duplicated, interleaved or cut short, at most one event is stored per delivery id over all transactions, apart from events that other writers brought. |
| Webhooks.StoredEventIsIdempotent | src/behavior_lab/counterpilot_state/machine.py:138-150 | Appending an event that is stored already changes nothing and says so. |
| Webhooks.NamespacesCoincide | integrations/shopify/adapter.py:826-827 | Two bindings share a namespace exactly when merchant and store agree, or one merchant's name goes on after a colon into the other's store. |
| Webhooks.FreshDeliveryIngested | integrations/shopify/adapter.py:374-410 | Left alone, a delivery nobody has claimed is claimed and its event appended. |
| Webhooks.CrashedDeliveryResumes | integrations/shopify/adapter.py:706-741 | After a crash between claim and append, a redelivery finds the claim and appends the event. |
| WebhookAdapter.ShopifyAdapter.Perform | integrations/shopify/adapter.py:374-410 | Each ledger access of a worker, done on the two ledgers, is the protocol's step. |
| WebhookAdapter.ShopifyAdapter.ClaimDelivery | integrations/shopify/adapter.py:706-741 | Whatever others do between the look and the append, a successful claim leaves the delivery bound to exactly this request, and it is a replay exactly when it was bound before. |
| WebhookAdapter.ShopifyAdapter.IngestWebhook | integrations/shopify/adapter.py:374-410 | Under any interference the result and both ledgers are the claim's and then the machine's; an imported or stored event carries the delivery's id, namespace, transaction, times and reported state. |
| WebhookAdapter.ClaimBinds | integrations/shopify/adapter.py:716-741 | A claim that did not find an older one keeps the invariant and, if it succeeds, binds. |
| WebhookAdapter.ClaimExactly | integrations/shopify/adapter.py:706-741 | A claim is a replay exactly when the delivery is bound to this request, new exactly when its id is unclaimed, and refused exactly when it is bound to another. |
| WebhookAdapter.OutcomeStored | src/behavior_lab/counterpilot_state/machine.py:129-168 | An event imported now or stored before is in the ledger afterwards. |
| LabSteps.FreezeLegal | src/behavior_lab/registry.py:261-315 | With the head unchanged, the scan that read it is the whole ledger, so everything before the freeze was written by frozen_at. |
| LabSteps.FreezeHealthy | src/behavior_lab/registry.py:224-329 | A freeze attempt by any client leaves the ledger legal. |
| LabSteps.ManifestHealthy | src/behavior_lab/gym.py:317-387 | A manifest refresh from six scans of different ledgers appends only legal splits, or nothing. |
| LabSteps.HiddenCasesAreTheHiddenSet | src/behavior_lab/gym.py:224-235 | However rows and splits were scanned, the hidden rows read are the campaign's whole hidden set. |
| LabSteps.SubmitHiddenHealthy | src/behavior_lab/research_api.py:189-218 | A hidden submission reserves only what its freeze, its campaign's hidden set and earlier reservations allow. |
| LabSteps.SubmitProspectiveHealthy | src/behavior_lab/research_api.py:414-447 | A prospective submission reserves only cases filed under its freeze that pass re-validation. |
| LabFacts.RowsJustified | src/behavior_lab/gym.py:147-222 | Every row stands on records of the ledger that give its times, even when the three scans saw different ledgers. |
| LabFacts.RevalidatedBirth | src/behavior_lab/gym.py:475-484 | A case that passes re-validation was born after the freeze, although its row came from three different scans. |
| LabRuns.StepKeepsOk | src/behavior_lab/ledger.py:156-188 | Every step of every client keeps the ledger legal and what clients remember consistent with it. |
| LabRuns.RunKeepsOk | src/behavior_lab/ledger.py:156-188 | The same over every interleaving; the ledger only grows. |
| LabTheorems.PreregistrationsAreNumbered | src/behavior_lab/experiments.py:78-132 | The k-th preregistration of a design has sequence k, so no two of a design share one. |
| LabTheorems.AssignmentsAreNumbered | src/behavior_lab/experiments.py:154-307 | The k-th assignment of a stream has index k, below the number of trials planned by its preregistration. |
| LabTheorems.DrawsAreDistinct | src/behavior_lab/experiments.py:189-223 | No two assignments share randomization namespace and index. |
| LabTheorems.NextIndexIsFree | src/behavior_lab/experiments.py:280-290 | The next index of a stream is never taken: the guard's last test cannot fire. |
| LabTheorems.OneOutcomePerAssignment | src/behavior_lab/experiments.py:349-392 | A trial follows its assignment in the ledger, is not dated before it, and is its only outcome. |
| LabTheorems.OneSplitPerCase | src/behavior_lab/gym.py:243-260 | A case has at most one split in a campaign, so the error for a second one never fires. |
| LabTheorems.StandardSetsNeverChange | src/behavior_lab/gym.py:271-387 | From a campaign's creation on, its training, development and hidden sets never change, and new cases are staging or prospective. |
| CampaignTheorems.CampaignIsChronological | src/behavior_lab/gym.py:271-313 | In every run no training case is later than a development case of its campaign, and none of either later than a hidden one, by decision time and then case id. |
| CampaignTheorems.CampaignProportions | src/behavior_lab/temporal.py:121-190 | In every run a campaign started on n cases has three fifths for training (at least one), one fifth for development (at least one of two) and the rest hidden. |
| LockboxTheorems.OneFreezeOneFit | src/behavior_lab/registry.py:69-90 | A campaign is frozen at most once, and a model is fitted in it at most once. |
| LockboxTheorems.FreezeIsACut | src/behavior_lab/registry.py:261-315 | A freeze names the head of exactly the ledger before it, its time separates the records before it from those after it, and the fit of its artifact precedes it. |
| LockboxTheorems.FreezeAllLabelled | src/behavior_lab/registry.py:287-307 | No pilot or unlabelled episode or trial precedes a freeze in the ledger, of whatever campaign. |
| LockboxTheorems.UnlabelledCaseBlocksFreezing | src/behavior_lab/registry.py:287-307 | Once a pilot or unlabelled episode or trial is in the ledger, no later run freezes a candidate of any campaign. |
| LockboxTheorems.HiddenReservations | src/behavior_lab/registry.py:177-205 | Hidden reservations have disjoint, non-empty case sets across all campaigns, each exactly the cases filed as hidden in its campaign; a campaign reserves at most once. |
| Budgets.ProspectiveBudgetHolds | src/behavior_lab/research_api.py:414-447 | In every run whose submissions allow at most L uses, no freeze has more than L prospective reservations. |
| LockboxTheorems.EvaluationsArePaid | src/behavior_lab/research_api.py:178-229 | Evaluations cite a reservation exactly when they score hidden or prospective cases; each of those is preceded by a reservation no other evaluation uses, that by the campaign's only freeze, and that by the fit of the frozen artifact. |
| LockboxTheorems.OneHiddenEvaluation | src/behavior_lab/research_api.py:189-229 | A campaign's hidden set is scored at most once. |
| LockboxTheorems.ProspectiveAfterFreeze | src/behavior_lab/gym.py:341-387 | For every prospective split: the freeze, then the record that made the case eligible, then the split, in this order in the ledger. |
| LockboxTheorems.ReservedCasesBornAfterFreeze | src/behavior_lab/research_api.py:414-447 | Every case reserved for prospective evaluation has an episode or a randomized assignment behind it, and every such record comes after the freeze. |
| Revalidation.RevalidationFailsExactly | src/behavior_lab/gym.py:475-484 | Re-validation raises exactly when the scans show a selected trial whose assignment was made by the cutoff or filed by the freeze. |
| Revalidation.UntornFilingIsSafe | src/behavior_lab/gym.py:166-216 | A refresh whose scan of assignments covers its scan of trials files a trial as prospective exactly when its assignment is after cutoff and freeze. |
| TornRead.RevalidationCanFail | src/behavior_lab/gym.py:168-200 | There is a run, with a freeze at the latest decision time observed, after which a submission that scans one and the same ledger is refused by re-validation. |
| UntornRuns.UntornRunNeverFails | src/behavior_lab/gym.py:166-216 | In every run whose refreshes each saw the assignment of every trial they saw, re-validation never fails, whatever a submission scans. |
| LabProgress.ManifestCovers | src/behavior_lab/gym.py:317-387 | A refresh that adds anything leaves every case it saw with a split. |
| LabProgress.FreshCasesAreWithinBudget | src/behavior_lab/registry.py:177-205 | Hidden cases not exposed before are always within their scope's budget. |
| LabProgress.FrozenIsUsable | src/behavior_lab/research_api.py:415-423 | In every run the campaign's freeze can be used: its model has a fit, and with the artifact frozen. |
| LabProgress.QuietSubmitHidden | src/behavior_lab/research_api.py:189-218 | Left alone, the frozen candidate reserves its whole unspent hidden set and goes on to evaluate. |
| LabProgress.QuietSubmitProspective | src/behavior_lab/research_api.py:414-447 | Left alone, a submission whose cases pass re-validation reserves them and goes on to evaluate. |
| LabProgress.ProspectiveCasesExactly | src/behavior_lab/gym.py:452-487 | The cases a prospective submission reserves are exactly those with a usable record that are filed as prospective under the freeze. |
| LabProgress.EvaluationGoesThrough | src/behavior_lab/research_api.py:448-460 | In every run, a client that holds a reservation can record its evaluation. |
| LabProgress.QuietFreeze | src/behavior_lab/registry.py:224-329 | Left alone, a freeze is appended exactly when the candidate is fitted, the campaign not frozen, the id fresh, every case in the ledger can be scored and each of those is filed; it then cuts the ledger at its end and has the id, cutoff and time it should. |
| ManifestProgress.SplitIdsCoincide | src/behavior_lab/gym.py:379 | Splits of two campaigns share an id exactly when the name of one campaign reaches into the case of the other. |
| ManifestProgress.RowsAreOfDifferentCases | src/behavior_lab/gym.py:218-222 | The rows of one reading are of different cases. |
| ManifestProgress.QuietRefresh | src/behavior_lab/gym.py:317-387 | Left alone, a refresh adds something exactly when something is missing and none of the ids it needs is taken; then every case with a row is filed, and otherwise nothing changes. |
| ManifestProgress.QuietRefreshClassifies | src/behavior_lab/gym.py:341-382 | Left alone, a refresh files a case without a split as prospective exactly when it was decided after the cutoff and eligible after the freeze of its campaign, and else as staging. |
| FreezeProgress.RefreshThenFreeze | src/behavior_lab/research_api.py:376-412 | Left alone, a refresh followed by a freeze goes through exactly when the candidate is fitted, the campaign not frozen, the id fresh, every case can be scored, and all are filed or can be. |
| FreezeProgress.FreezableExactly | src/behavior_lab/registry.py:261-315 | Some run from a reachable world freezes the campaign exactly when it is not frozen, every case can be scored, the campaign exists or its name is free, and every case not yet filed has its id free. |
| FreezeProgress.OneUnlabelledCaseStopsAll | src/behavior_lab/registry.py:287-307 | There is a run with one record, a pilot, after which no run freezes any campaign. |
| FreezeProgress.OverlappingCampaignNeverFrozen | src/behavior_lab/gym.py:317-387 | While one campaign holds the id of a split that another lacks, no run freezes the other. |
| FreezeProgress.OverlapHappens | src/behavior_lab/gym.py:268-313 | There is a run after which every case can be scored, campaign `a` can be frozen and campaign `a_b` never can. |
| Scheduler.CountDesignIn | src/behavior_lab/experiments.py:92-98 | One pass counts the preregistrations of a design. |
| Scheduler.StreamLengthIn | src/behavior_lab/experiments.py:166-183 | One pass counts a stream: of one preregistration, or ad hoc of one comparison. |
| Counting.CountUsesExactly | src/behavior_lab/registry.py:177-184 | The uses counted are the records that reserve that split and scope. |
| Counting.CountDesignExactly | src/behavior_lab/experiments.py:92-98 | The registrations counted are the records with that design. |
| Counting.StreamLengthExactly | src/behavior_lab/experiments.py:166-183 | A stream is the assignments of one preregistration, or the ad hoc ones of one comparison. |
| Scheduler.ExperimentScheduler.TryPreregister | src/behavior_lab/experiments.py:91-132 | One try under interference: the next record of the design appended, or lost to a registration of the same design or a taken id, or refused for good, and then nothing. |
| Scheduler.ExperimentScheduler.Preregister | src/behavior_lab/experiments.py:50-132 | Under any interference within five tries: one record with the right sequence appended, or nothing; it gives up only if every try was lost to a registration of the same design or a taken id. With no interference it succeeds exactly when the design is valid and an id drawn is new. |
| Scheduler.ExperimentScheduler.TryAssign | src/behavior_lab/experiments.py:154-307 | One try under interference: the next assignment of the stream, treated exactly when the draw is below the probability, at the time given or read; or lost to another assignment or a taken id; or refused, for its preregistration or the number planned, and then nothing. |
| Scheduler.ExperimentScheduler.AssignIntervention | src/behavior_lab/experiments.py:134-307 | The same within five tries, below the planned number of trials. |
| Scheduler.ExperimentScheduler.RecordTrialOutcome | src/behavior_lab/experiments.py:309-404 | One guarded append: the assignment's first outcome, or nothing. |
| ExperimentProgress.QuietRegister | src/behavior_lab/experiments.py:50-132 | Left alone, a design is registered exactly when all of it is given, its arms differ, trials are planned and the id is new. |
| ExperimentProgress.QuietAssign | src/behavior_lab/experiments.py:154-307 | Left alone, an assignment is made exactly when its arms differ, its id is new and its preregistration, if named, is for this comparison and has trials left. |
| ExperimentProgress.NamespaceNames | src/behavior_lab/experiments.py:189-208 | The namespace of a draw is the design and sequence of the preregistration named, or the comparison. |
| ExperimentProgress.OutcomeExactly | src/behavior_lab/experiments.py:309-404 | An outcome is recorded exactly when its id is new, the assignment presented is the one in the ledger and not later, the preregistered target is there and no outcome came before. |
| ExperimentProgress.FitExactly | src/behavior_lab/registry.py:39-97 | A fit is recorded exactly when it has an artifact and is the first of its model in the campaign. |
| ExperimentProgress.SeedExactly | src/behavior_lab/gym.py:135-142 | Episodes are appended together exactly when each has an id and all are new and differ. |
| ExperimentProgress.OpenEvaluationExactly | src/behavior_lab/research_api.py:178-229 | Training and development evaluations, and no others, are recorded without a reservation. |
| Registry.ModelRegistry.RecordFit | src/behavior_lab/registry.py:39-97 | One guarded append: the model's first fit in the campaign, or nothing. |
| Registry.ModelRegistry.ReserveEvaluationBudget | src/behavior_lab/registry.py:129-205 | Succeeds exactly when the split is hidden or prospective, the limit positive, the scope not blank, an artifact, a freeze and cases are named, the id is new, fewer records than the limit reserve the scope and, for hidden cases, none was reserved before; a failure leaves the ledger alone. |
| Registry.ModelRegistry.TryFreeze | src/behavior_lab/registry.py:258-328 | One try under interference: a freeze that cuts the ledger at its end with every case assigned, or nothing and the reason why. |
| Registry.ModelRegistry.FreezeCandidate | src/behavior_lab/registry.py:224-329 | Within three tries: a first freeze of the fitted artifact; the earlier freeze exactly when this model was frozen, and refused exactly when another was; an error only for a taken id, a freeze made meanwhile, or a case that is unlabelled or not filed; it gives up only if the head moved in every try. With no interference it freezes exactly when the candidate is fitted, not frozen, its id new and all cases labelled and filed. |
| Gym.TrialRowsIn | src/behavior_lab/gym.py:166-216 | Joins each usable trial to the last assignment record with its id, when the earlier scan has one. |
| Gym.SplitAssignmentRecords | src/behavior_lab/gym.py:243-260 | One pass that raises exactly when some case is assigned twice, and otherwise maps each case to its split. |
| Gym.RowsAreOnePerCase | src/behavior_lab/gym.py:467-467 | A case never has two different rows, so indexing rows by case loses none. |
| Gym.CampaignEntries | src/behavior_lab/gym.py:271-313 | The entries of a new campaign: its start, then every row in its chronological split. |
| Gym.MissingEntries | src/behavior_lab/gym.py:341-382 | One split for each case that had none: prospective exactly when it is after cutoff and freeze. |
| Gym.SelectProspective | src/behavior_lab/gym.py:467-487 | Raises exactly when re-validation fails, and otherwise selects exactly the rows filed under the freeze. |
| Gym.WorldGym.Rows | src/behavior_lab/gym.py:218-222 | The rows joined from three scans, whatever others do between them. |
| Gym.WorldGym.CampaignKnown | src/behavior_lab/gym.py:268-269 | Looking for the start by its record id finds exactly the campaigns that were started. |
| Gym.WorldGym.EnsureSplitManifest | src/behavior_lab/gym.py:317-387 | Under any interference the loops and the batch append do what the protocol's commit does on the six scans made. |
| Gym.WorldGym.ProspectiveRowsForFreeze | src/behavior_lab/gym.py:452-487 | Raises for an unknown freeze or exactly when re-validation fails, and otherwise selects the rows filed under the freeze. |
| Consent.LastRecordDecides | src/behavior_lab/counterpilot_storage/consent.py:108-130 | Consent is active exactly when the last effective record that mentions the purpose grants it, unrevoked at the cutoff. |
| Consent.NewestMentionDecides | src/behavior_lab/counterpilot_storage/consent.py:108-130 | One of the newest effective mentions by the merchant's store decides, by granting the purpose unrevoked; at one time a prohibition or dated mention decides over an open-ended grant, and then the one written last. |
| Consent.OtherRecordsDoNotMatter | src/behavior_lab/counterpilot_storage/consent.py:199-222 | Records of other merchants, stores or types, or not in effect yet, never change an answer. |
| Consent.ActiveExactly | src/behavior_lab/counterpilot_storage/consent.py:108-130 | For every ledger: active exactly when the latest effective time has only open-ended grants, or a dated grant still running decides. |
| Consent.OpenEndedClosedForm | src/behavior_lab/counterpilot_storage/consent.py:206-241 | Without running dated grants the closed form is the answer. |
| Consent.AppendOrderIrrelevant | src/behavior_lab/counterpilot_storage/consent.py:206-222 | Then the answer depends only on which consents were recorded. |
| Consent.BackfillNeverReactivates | src/behavior_lab/counterpilot_storage/consent.py:236-241 | Grants dated before a prohibition, or at its time without a revocation date to come, never reactivate it. |
| Consent.DatedGrantReactivates | src/behavior_lab/counterpilot_storage/consent.py:236-241 | A dated grant backfilled at the very time of a revocation reactivates the purpose, both records as the ledger writes them, for every digest that tells them apart. |
| Consent.EvidenceCitesGrant | src/behavior_lab/counterpilot_storage/consent.py:143-185 | Required evidence fails exactly when consent is inactive; evidence cites a newest mention, if there is one, and active evidence an effective record that grants the purpose. |
| Consent.RevocationStops | src/behavior_lab/counterpilot_storage/consent.py:73-103 | From its time on a revocation keeps the purpose inactive, whatever older grants come later. |
| Consent.RevocationExactly | src/behavior_lab/counterpilot_storage/consent.py:73-103 | A revocation prohibits just its purpose from its time on, under the policy of a newest mention or `unknown`. |
| Consent.CheckedSound | src/behavior_lab/counterpilot_storage/consent.py:37-55 | A constructed record never grants and prohibits one purpose, nor is it revoked before it is granted, and its purposes are normalized. |
| Consent.CheckedExactly | src/behavior_lab/counterpilot_storage/consent.py:37-55 | A record is accepted exactly when its fields are given, it is not revoked before it is granted and no stripped purpose is both granted and prohibited; only its purposes are changed, to the stripped ones. |
| Consent.StripExactly | src/behavior_lab/counterpilot_storage/consent.py:224-228 | Stripping takes all spaces off both ends and nothing else. |
| Consent.AppendedConsentExactly | src/behavior_lab/counterpilot_storage/consent.py:67-71 | A consent is appended exactly when it is accepted, the chain verifies and its content's id is new. |
| Consent.ConsentLedger.AppendConsent | src/behavior_lab/counterpilot_storage/consent.py:67-71 | Appends the normalized record under the id its content determines, or raises and appends nothing. |
| Consent.ConsentLedger.EffectiveOnes | src/behavior_lab/counterpilot_storage/consent.py:199-222 | The store's records effective by the cutoff, in the replay order. |
| Consent.ConsentLedger.IsActive | src/behavior_lab/counterpilot_storage/consent.py:108-130 | The loop's final state is the replayed answer. |
| Consent.ConsentLedger.LatestEvidence | src/behavior_lab/counterpilot_storage/consent.py:143-185 | The last mention and whether consent is active, or the error when it is required and is not. |
| Consent.ConsentLedger.Revoke | src/behavior_lab/counterpilot_storage/consent.py:73-103 | Appends the prohibition under the policy last in force. |
| PurgedSplit.ChronologicalGroupPurgedSplit | src/behavior_lab/benchmarks/splits.py:54-115 | The loops compute the split by boundaries and straddling groups; fractions are judged only when there are rows. |
| PurgedSplit.FindPurged | src/behavior_lab/benchmarks/splits.py:86-92 | One pass over a map of regions finds the groups with more than one region. |
| PurgedSplit.Conservation | src/behavior_lab/benchmarks/splits.py:94-115 | Every row goes to one region or is purged with its group: nothing is lost or repeated. |
| PurgedSplit.PurgedExactly | src/behavior_lab/benchmarks/splits.py:86-92 | A group is purged exactly when two of its rows fall on different sides of a boundary. |
| PurgedSplit.GroupsStayTogether | src/behavior_lab/benchmarks/splits.py:146-152 | No group is in two regions, and the rows kept are exactly those of groups that straddle no boundary. |
| PurgedSplit.ChronologicalAcrossRegions | src/behavior_lab/benchmarks/splits.py:54-115 | Training comes before development and development before hidden in time. |
| PurgedSplit.BoundariesFit | src/behavior_lab/benchmarks/splits.py:164-173 | From two rows on, training and hidden are never empty, and the final repair changes nothing. |
| PurgedSplit.RegionsFollowFractions | src/behavior_lab/benchmarks/splits.py:54-115 | When no group straddles, the regions are consecutive parts of the rows in time whose ends are the fractions of the rows rounded down, training having at least one. |
| PurgedSplit.GroupsExactly | src/behavior_lab/benchmarks/splits.py:176-181 | Rows are of one group exactly when they name the same one; a row that names none is alone. |
| TemporalSplit.AllocationFits | src/behavior_lab/temporal.py:148-179 | For all accepted fractions the sizes add up, no part asked for is empty once there are enough rows, and nothing becomes prospective unasked. |
| TemporalSplit.FloorsStand | src/behavior_lab/temporal.py:148-179 | When the floors fit, every part but hidden has its floor, and hidden takes the rest. |
| TemporalSplit.SizesFollowFractions | src/behavior_lab/temporal.py:148-179 | When each part asked for has a whole row to take, each has its fraction of the rows rounded down, and hidden what is left. |
| TemporalSplit.ExcessComesOffLatest | src/behavior_lab/temporal.py:148-179 | When the floors do not fit, hidden gives only once nothing is prospective, development only once hidden is at its minimum, and training last. |
| TemporalSplit.Allocate | src/behavior_lab/temporal.py:148-179 | The loop that takes the excess off prospective, then hidden, then development computes that allocation. |
| TemporalSplit.SplitRows | src/behavior_lab/temporal.py:121-190 | The four slices of the sorted rows, or the error for the fractions. |
| TemporalSplit.SlicesAreTheRows | src/behavior_lab/temporal.py:181-190 | The four slices, end to end, are exactly the rows in chronological order. |
| Reports.MatureByScan | src/behavior_lab/counterpilot_reports.py:192-216 | A transaction's scan shows mature exactly when its replayed state is mature. |
| Reports.MatureWasPaid | src/behavior_lab/counterpilot_reports.py:219-233 | A mature transaction's scan shows that it was paid. |
| Reports.SummaryAmounts | src/behavior_lab/counterpilot_reports.py:334-352 | The cost comes from the first event that has one, revenue from the last payment, fees and margin from the first event that matures the transaction. |
| Reports.SummaryMissing | src/behavior_lab/counterpilot_reports.py:355-367 | The cost is missing when no event has it, the other amounts when a matured transaction lacks them. |
| Reports.SummedAmountsExist | src/behavior_lab/counterpilot_reports.py:355-367 | A mature transaction is complete exactly when cost, revenue, fees and margin are all recorded, so no total counts a missing amount as zero. |
| Reports.SummedExactly | src/behavior_lab/counterpilot_reports.py:236-262 | Summed are exactly the mature transactions that lack nothing, and excluded the other mature ones. |
| Reports.TotalsAddUp | src/behavior_lab/counterpilot_reports.py:250 | A total over one transaction is its amount, and totals add up. |
| Reports.FunnelAddsUp | src/behavior_lab/counterpilot_reports.py:219-262 | Mature transactions are those summed and those named as excluded, and are no more than the paid ones. |
| Reports.BreakdownAddsUp | src/behavior_lab/counterpilot_reports.py:285-294 | Over any listing of the buckets, transactions, mature ones and complete margin add up to the report's totals. |
| Reports.GroupIsTransaction | src/behavior_lab/counterpilot_reports.py:177-189 | Grouping the report's events gives each transaction the very events the machine replays. |
| Reports.GroupTransactions | src/behavior_lab/counterpilot_reports.py:185-189 | One pass over a map puts every event into its transaction, in ledger order. |
| Reports.TransactionSummary | src/behavior_lab/counterpilot_reports.py:192-216 | The summary of the scanned amounts and the replayed state. |
| Reports.MatureMarginSummary | src/behavior_lab/counterpilot_reports.py:236-262 | Totals over the complete mature transactions, and the list of the excluded ones. |
| Reports.Breakdown | src/behavior_lab/counterpilot_reports.py:285-294 | One pass over a map of counters counts each bucket's transactions. |
| Reports.Summaries | src/behavior_lab/counterpilot_reports.py:27-32 | One summary for each transaction that has events, and each of them once. |
| Evaluation.CalibrationError | src/behavior_lab/evaluation.py:40-57 | The nested loops compute the weighted sum of the buckets' gaps. |
| Evaluation.BucketsPartition | src/behavior_lab/evaluation.py:44-51 | Summing bucket by bucket is summing over all cases: the buckets partition the unit interval. |
| Evaluation.ErrorByBins | src/behavior_lab/evaluation.py:40-57 | The error times the number of cases is the sum over all bins of the distance by which a bin's predictions and targets differ in total. |
| Evaluation.OneBinIsMeanGap | src/behavior_lab/evaluation.py:40-57 | With one bin the error is the distance of the means. |
| Evaluation.ErrorBetweenMeans | src/behavior_lab/evaluation.py:40-57 | For predictions in the unit interval and any number of bins, the error lies between the distance of the means and the mean absolute error. |
| Evaluation.ParetoFrontier | src/behavior_lab/evaluation.py:178-193 | The nested loops keep exactly the models nothing else dominates, sorted by loss and then complexity. |
| Evaluation.FrontierIsEnough | src/behavior_lab/evaluation.py:178-193 | Every dropped model is dominated by a kept one, no kept model dominates another, some model is kept, and along the frontier loss rises while complexity falls. |
| Evaluation.FrontierExactly | src/behavior_lab/evaluation.py:178-193 | A model is on the frontier as often as it was given when none dominates it, and else not at all. |

## Left out

- Time: timestamps are integers that never decrease along the ledger, fractions, probabilities and losses are reals; clock steps backwards and floating-point rounding are not modelled.
- File handling: JSON, fsync, the sidecar lock and its stale-lock recovery, and the checks for missing fields; an exclusive section is one atomic method.
- Hashes: digests are injective by construction; truncation of hashes in record ids is not modelled.
- Records of other types that share the ledger, such as campaign definitions and hypothesis statuses, are not modelled; episodes are added in batches, however they come about.
- Random ids and randomization draws are parameters, and so are artifacts, labels and features: model fitting, evaluation of models, world simulation and causal intervals are not modelled.
- The laboratory's source clients stop after three or five tries; in the protocol a client may retry any number of times, and the methods of `Scheduler` and `Registry` have the bounds.
- `ResearchAPI.freeze_candidate` computes the data cutoff from the rows it reads, and refuses when there are none; here the cutoff is any number, so nothing depends on it. `evaluate_hypothesis` and `submit_frozen_candidate` are tasks of the protocol and have no imperative counterpart; their comparison with the artifact rebuilt in memory is not modelled.
- Scheduler.ExperimentScheduler.Preregister: draws its record ids from a list given by the caller.
- Scheduler.ExperimentScheduler.AssignIntervention: refuses an invalid probability, but the probability, the context and the block are not in the record; only the arm drawn is.
- Registry.ModelRegistry.ReserveEvaluationBudget: keeps the ledger legal only for a reservation that its freeze allows, which the research API sees to and the registry does not check.
- FreezeProgress.FreezableExactly: when a case has the very id `None`, which the freeze guard skips and the manifest files, the converse also asks that the id of its split be free.
- Gym.WorldGym.EnsureSplitManifest: does not model the mapping returned, which is read from the ledger again.
- Consent.ConsentLedger.LatestEvidence: takes the time asked about as given; without one the source reads the clock several times.
- Consent records carry no provenance here, and whitespace is blank, tab, newline and carriage return.
- Replay lists that are only copied out of applied events (actions, recommendations, decisions, outcome) are not modelled; the currency of an event and its conversion record are given.
- Nothing is claimed about replay errors being empty: a late event can turn a pending webhook into an error.
- Webhooks.AtMostOneEventPerDelivery: speaks of the events that claims explain; other writers, such as the fixtures of `src/behavior_lab/counterpilot_core.py:288-289`, may append events that name the same source, and about those it promises nothing.
- Webhooks: signature verification, freshness, shop and resource binding, and the record of operational resource ids are not modelled; topics are lower-cased in ASCII.
- Normalization of transaction events, personal-data checks and the validation of money fields are not modelled.
- Reports.TransactionSummary: does not model the currency, the asking, offered and floor prices, shipping, refund, return and discount amounts, the event ids and the error count; the bucket is any function of the events.
- Reports.MatureMarginSummary: does not total shipping, refunds and returns, and does not name the currency.
- Reports: leakage counts, the rule simulator and markdown are not modelled; summaries are not sorted.
- `group_disjoint_split`, `chronological_split`, `paired_compare`, `DisagreementFinder.propose`, model promotion and obituaries, the formula language, command-line tools and network clients are not modelled.
