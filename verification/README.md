# Model of the catalog, access-group, purchase and backfill logic

A Dafny model of the parts of the service that keep several stores in step: the database, the proxies of the
regions (LiteLLM), and the background work that carries one to the other. Each component is given twice, as
the code carries it out (classes whose methods change fields, loops with their invariants) and as a function or
a transition relation that says what the outcome is; the two are proved equal, and the promises are then proved
about the latter, for every input and every run. Where a promise is about what is stored, shown or pushed, it is also
stated on the tables and requests themselves, in their own literal terms, apart from the functions that compute it.

`dafny verify dfyconfig.toml` checks everything.

## What is modelled

**The declarative catalog** (`Credentials`, `Catalog`, `CatalogPlans`, `CatalogApply`, `CatalogTheorems`,
`CatalogConvergence`, `CatalogSecrets`, `CatalogExamples`, `CatalogAnswers`). A request carries the full desired state: groups,
models, aliases, deployments per region. `CatalogApply.Session.ApplyModelConfig` validates it, reconciles the
stored rows in the managed regions and collects the (model, region) pairs to push. Rows are keyed by their stable
names; the clock is a parameter. Credentials inside nested parameters are redacted on the way out and merged back
on the way in.

**Access groups** (`AccessGroups`, `AccessGroupRequests`, `AccessGroupTheorems`, `AccessGroupRuns`,
`PublicFilter`). A group is a tag on models and an entry in teams' lists. Requests edit the tables and queue
pushes; background tasks push what the tables then say, and may fail. `PublicFilter` is the batched filter of the
public listing.

**Purchases** (`Purchases`, `PurchaseLocks`, `PurchaseCredits`, `PurchaseGates`, `PurchaseBudgets`,
`PurchaseAlone`, `PurchaseRequests`, `PurchaseRefinement`, `PurchaseHistory`, `PurchaseAnswers`). A transition system with any number
of purchases, through both endpoints, and of clears in flight, a lock for each region, committed rows apart from
what each transaction has staged, proxies that may fail at any call or lose an answer, crashes at any point before
a commit, region activation, spend, consumption, expiry, subscriptions and rollovers. What is credited is stated
payment by payment, so that one payment's mixed use says nothing against another's. `PurchaseRequests` has the
endpoints as they run, `PurchaseRefinement` shows that uninterrupted they are runs of the transition system, and
`PurchaseHistory` reads off a run's past what the guards and the gate see. `PurchaseAnswers` says in figures what each
answer leaves behind. Money is in cents, proxy budgets in
1/10000 dollar.

**The LiteLLM backfill** (`Backfill`, `BackfillRunner`, `BackfillTheorems`, `BackfillCoverage`). The teams and users phases, with the
roster cache that is never refreshed, the row limit, dry runs, and any set of failing calls.

**Team and region association** (`Association`, `AssociationTheorems`) and **the Slack chunker** (`Chunker`).

## What the proofs found

The code decides these; where its documentation says otherwise the model follows the code.

- An alias is documented to follow its target "at sync time", but a change of its target's parameters does not
  queue the alias. `CatalogTheorems.MissedPushExactly` says, of the stored rows and the request, exactly when a push
  is missed; `CatalogExamples.AliasMissesItsPush` is a request that misses one.
- Creating a model with empty parameters stores `{}`, which a second apply turns into null: one application is
  enough exactly if no model is created so (`CatalogConvergence.Convergence`,
  `CatalogExamples.EmptyParamsMoveAgain`).
- Redaction is documented to keep secrets from the browser, but neither it nor the search for placeholders walks
  lists. What is shown is free of literal credentials exactly if no list holds one
  (`Credentials.ShownExposesExactly`, with `{"api_key": ["sk-live"]}` in `Credentials.ListedSecretIsShown`); an
  accepted request stores a placeholder exactly if it posts one inside a list
  (`CatalogSecrets.ListedSentinelsAreStored`, with `{"fallbacks": [{"api_key": "********"}]}` in
  `Credentials.ListedSentinelIsStored`).
- Making a group a region's default counts members that are switched off globally, whose tags are on no proxy:
  the group is served exactly if some active member is active globally too
  (`AccessGroupRuns.GateServesLiveMembers`), and a region's teams can be left with a name no model answers to
  (`AccessGroupRuns.GateAcceptsUnservedGroup`). The gate is not kept up by later requests either: an update of the
  default to models none of which is active in the region is accepted, and nothing else takes its last member
  (`AccessGroupRuns.DefaultKeepsMembersExactly`, with a run in `AccessGroupRuns.DefaultMayLoseItsMembers`).
- `/purchase/periodic` is documented as idempotent in the Stripe id. Its guard is per team and region: the same
  id is credited once in each region it is sent to (`PurchaseCredits.PeriodicPaymentOnce`,
  `PurchaseAlone.PeriodicCreditsEveryRegion`). The pool endpoint's guard is global for a payment that only that
  endpoint sees (`PurchaseCredits.PoolPaymentOnce`). A payment that it has credited is credited again exactly while
  the payment row says that the last attempt failed, which takes a failed periodic attempt with that payment for
  another team or region (`PurchaseHistory.PoolCreditsAgainExactly`, `PurchaseAlone.MixedEndpointsCreditTwice`).
- "Has ever purchased" is read off rows that later attempts delete or move. It holds exactly if there was a
  subscription or rollover entry, or some payment's last attempt there succeeded, or some payment's last pool
  attempt was there (`PurchaseHistory.EverPurchasedExactly`). So a failed pool attempt already lifts the gate
  (`PurchaseRequests.FailedAttemptLiftsGate`), and a success can be forgotten: four attempts with one payment through
  both endpoints end with a credited team whose key a clear puts back at zero (`PurchaseHistory.SuccessForgotten`).
  With one endpoint per payment that cannot happen (`PurchaseGates.SuccessOpensForGood`).
- The pool endpoint says that it never sets per-key budgets: a success leaves all keys without one exactly if none
  of them has a configured cap (`PurchaseRequests.PoolPurchaseSetsCaps`).
- The backfill's `--limit` is not looked at after a skipped user. The users phase stays within it exactly if there
  are no more users than that or the one that reaches it is not skipped (`BackfillTheorems.LimitIsKeptExactly`); the
  teams phase always does (`BackfillTheorems.TeamsKeepTheLimit`). A dry run of the users phase alone predicts the real
  one exactly if no reached user's team is missing from its proxies (`BackfillTheorems.UsersPrediction`,
  `BackfillTheorems.MissingTeamIsMispredicted`).
- A failed association is undone exactly if its compensating commit works
  (`AssociationTheorems.FailureRestores`); otherwise the team has moved although the answer says it has not.

## Model

| member | source | states |
|---|---|---|
| Credentials.RedactLitellmParams | app/api/admin_models.py:47-70 | the loop over the entries computes the redaction of the whole nested document |
| Credentials.MergeCredentialSentinels | app/api/admin_models.py:73-88 | the loop resolves every placeholder, at any depth, against what is stored there |
| Credentials.MergeAt | app/api/admin_models.py:73-88 | at every path of keys the resolved document has the submitted value, what is stored there for ********, and nothing more |
| Credentials.FindSentinel | app/api/admin_models.py:91-97 | the early-returning search answers whether a placeholder occurs anywhere |
| Credentials.RedactIdempotent | app/api/admin_models.py:47-70 | redacting a redacted view changes nothing |
| Credentials.RedactHidesSecrets | app/api/admin_models.py:43-70 | no string reached through objects, at any depth, survives redaction as a literal under a credential key |
| Credentials.RedactAt | app/api/admin_models.py:47-70 | what is shown at every path of keys: a redacted object, or the value as the last key of the path decides |
| Credentials.CredentialKeyIsNamed | app/api/admin_models.py:40-44 | a key counts as a credential's exactly if one of the five words, in any case, is part of it |
| Credentials.RedactByName | app/api/admin_models.py:40-70 | at every path of keys a string is shown as ******** exactly if the last key names a credential and it does not start with os.environ/; anything else that is no object is shown as stored |
| Credentials.ShownExposesExactly | app/api/admin_models.py:43-70 | the shown document is free of literal credentials, lists included, exactly if no list in it holds one |
| Credentials.ListedSecretIsShown | app/api/admin_models.py:57-68 | a credential inside a list is shown as it is stored |
| Credentials.RedactRoundTrip | app/api/admin_models.py:47-88 | merging the redacted view back over the stored document gives the document |
| Credentials.MergeIdempotent | app/api/admin_models.py:73-88 | merging a second time over the result changes nothing |
| Credentials.MergeIsIdentityIffNoSentinel | app/api/admin_models.py:73-97 | merging over every stored document returns the submission exactly if it holds no placeholder |
| Credentials.MergeWithoutSentinel | app/api/admin_models.py:73-97 | a submission without placeholders is taken as it is, whatever is stored |
| Credentials.MergeNeverStoresSentinel | app/api/admin_models.py:73-97 | over a stored document in which the source finds no placeholder, it finds none in the result |
| Credentials.MergeStoresExactly | app/api/admin_models.py:73-97 | over a document free of placeholders, lists included, the result holds one exactly if a submitted list does |
| Credentials.ListedSentinelIsStored | app/api/admin_models.py:73-97 | a placeholder inside a list is not found and is stored as posted |
| CatalogApply.Session.ValidateSpecs | app/api/admin_model_apply.py:63-107 | accepts exactly the well-formed requests |
| CatalogApply.Session.ResolveRegions | app/api/admin_model_apply.py:109-148 | the managed regions, and for each mentioned region that is not, why it is skipped |
| CatalogApply.Session.ApplyAccessGroups | app/api/admin_model_apply.py:151-195 | every listed group's row, the reported changes, and the regions where its deployment flipped |
| CatalogApply.Session.UpsertCatalogModel | app/api/admin_model_apply.py:217-273 | the created or updated row, its changes, and whether anything pushed with it changed; refused for a kind change or a placeholder in a new model |
| CatalogApply.Session.ApplyDeployments | app/api/admin_model_apply.py:276-353 | the reconciled deployment rows, the changes, and the regions written; only managed regions are switched off |
| CatalogApply.Session.ReplaceGroupMemberships | app/api/admin_model_apply.py:356-371 | the model's groups are the listed ones, reported exactly if they differ |
| CatalogApply.Session.PruneModel | app/api/admin_model_apply.py:501-536 | a model is kept active until its end of life has passed, and otherwise switched off with its managed deployments |
| CatalogApply.Session.ApplyModelConfig | app/api/admin_model_apply.py:374-572 | answers with success exactly for acceptable requests; a refused or dry run leaves the committed store and the queue alone; otherwise both are what the specification says |
| CatalogTheorems.OrderIndependence | app/api/admin_model_apply.py:393-462 | permuting models and groups gives the same decision, store, changes and pushes |
| CatalogTheorems.DesiredState | app/api/admin_model_apply.py:276-353 | a listed model ends active, in its listed groups, live in exactly its listed managed regions |
| CatalogTheorems.DesiredContent | app/api/admin_model_apply.py:217-353 | and with the listed fields, dates as the same instants, parameters, overrides and alias targets, placeholders filled in from what was stored; an alias has no parameters or overrides of its own |
| CatalogTheorems.DesiredGroups | app/api/admin_model_apply.py:151-195 | a listed group ends with its label and description, and deployed, in managed regions, exactly where listed |
| CatalogTheorems.Frame | app/api/admin_model_apply.py:276-353 | no deployment, alias target or group deployment outside the managed regions changes, and unlisted rows change only by pruning |
| CatalogAnswers.AcceptedExactly | app/api/admin_model_apply.py:63-148 | exactly which requests are accepted, said of the request and the stored rows: no id or slug twice, groups listed, aliases and models well formed, no change of kind, no placeholder for what is not stored, alias targets that are models, no pruning without models |
| CatalogAnswers.SkippedExactly | app/api/admin_model_apply.py:109-148 | exactly the regions that a request names and does not reach are reported as skipped, each with its reason |
| CatalogAnswers.PruningAtEndOfLife | app/api/admin_model_apply.py:501-536 | an unlisted model is kept and reported while the request does not prune, or while it is active with no end of life announced or one after now; otherwise it ends inactive with no live managed deployment, each one switched off reported and pushed |
| CatalogAnswers.WrittenRowsArePending | app/api/admin_model_apply.py:276-353 | a deployment row that differs afterwards is pending since this moment and pushed |
| CatalogAnswers.ModelReportsExactly | app/api/admin_model_apply.py:455-572 | a model's row differs afterwards exactly if a change of it other than a blocked pruning is reported, in a dry run too |
| CatalogAnswers.GroupReportsExactly | app/api/admin_model_apply.py:151-195 | the same for groups |
| CatalogAnswers.LifecycleReports | app/api/admin_model_apply.py:217-536 | a model is reported created or pruned, and a deployment created or deactivated, exactly if the rows before and after say so |
| CatalogTheorems.SyncScope | app/api/admin_model_apply.py:455-489 | no push is ever owed outside the managed regions |
| CatalogTheorems.SyncComplete | app/api/admin_model_apply.py:455-489 | whatever the catalog says differently about a managed deployment, tags included, is pushed |
| CatalogTheorems.OwedExactly | app/api/admin_model_apply.py:455-489 | a served managed deployment is pushed exactly unless its row, its specification's changes, its groups' deployments and its pruning all leave it alone |
| CatalogAnswers.PushIs | app/services/model_sync.py:14-46 | what a push sends, parameter by parameter: the override's value or else the model's own, for an alias its target's with the target's name for a backend; refused without a live target, tagged with the model's deployed groups, deregistered when not live |
| CatalogTheorems.TargetChangesExactly | app/services/model_sync.py:14-46 | what an alias resolves to changes exactly if its target is created, reactivated, pruned, or given parameters or an override that resolve to something else |
| CatalogTheorems.MissedPushExactly | app/services/model_sync.py:14-46 | resolving aliases as the push does, a changed push is missed exactly for a served alias that the request leaves alone while it changes the alias's target, all read off the stored rows and the request |
| CatalogExamples.AliasMissesItsPush | app/api/admin_model_apply.py:464-471 | a concrete request whose only change is an alias target's backend, and the alias is not pushed |
| CatalogExamples.EmptyParamsMoveAgain | app/api/admin_model_apply.py:217-273 | a concrete accepted request that creates a model with empty parameters and does not settle at once |
| CatalogConvergence.Convergence | app/api/admin_model_apply.py:374-572 | a second application changes, pushes and reports nothing but blocked prunes, exactly if the first created no model with empty parameters |
| CatalogConvergence.AcceptedAgain | app/api/admin_model_apply.py:63-106 | a request accepted once is accepted over its own result |
| CatalogSecrets.SentinelNeverStored | app/api/admin_models.py:73-97 | over any run of applies no placeholder is ever stored where the source looks for one, in parameters or overrides |
| CatalogSecrets.ListedSentinelsAreStored | app/api/admin_models.py:73-97 | an accepted request leaves the store free of placeholders, lists included, exactly if none of its models posts one inside a list |
| CatalogSecrets.DeepSentinelNeverStored | app/api/admin_models.py:73-97 | over any run of applies that post none inside a list, none is ever stored anywhere |
| CatalogSecrets.ShownResolves | app/api/admin_models.py:47-88 | the redacted view of a stored document resolves to the document, unless that is `{}` |
| CatalogSecrets.RepostedParams | app/api/admin_model_apply.py:260-266 | re-posting the redacted parameters leaves them unchanged and reports no change of them |
| CatalogSecrets.RepostedOverride | app/api/admin_model_apply.py:291-331 | the same for a deployment's override |
| AccessGroupRequests.Directory.ResyncModels | app/api/access_groups.py:55-79 | every live deployment of the given models is marked pending and queued, and no other |
| AccessGroupRequests.Directory.RegionsOf | app/api/access_groups.py:82-89 | the active regions a team belongs to, by primary region or allowlist |
| AccessGroupRequests.Directory.ResyncTeams | app/api/access_groups.py:92-102 | a push for each existing team in each enforced region it belongs to |
| AccessGroupRequests.Directory.CreateGroup | app/api/access_groups.py:158-186 | leaves the tables and the queue as the specified outcome, refusals included |
| AccessGroupRequests.Directory.EditGroup | app/api/access_groups.py:198-254 | the sets collected while editing are those the specified outcome pushes, in every combination of changed models and regions |
| AccessGroupRequests.Directory.UpdateGroup | app/api/access_groups.py:198-261 | the whole update, with its refusals, is the specified outcome |
| AccessGroupRequests.Directory.DeleteGroup | app/api/access_groups.py:265-304 | the same for deletion, refused for a region's default |
| AccessGroupRequests.Directory.SetRegionDefault | app/api/access_groups.py:308-383 | the same for the default, with its gate on deployed, present and pushed members |
| AccessGroupRequests.Directory.SetTeamAccessGroups | app/api/access_groups.py:467-522 | the same for a team's opt-ins, which become exactly the listed groups |
| AccessGroupRequests.Directory.RetryRegionRun | app/api/access_groups.py:407-427 | queues a fan-out for an active region and changes nothing else |
| AccessGroupTheorems.AcceptedExactly | app/api/access_groups.py:158-522 | exactly which requests are carried out, said of the request and the tables |
| AccessGroupTheorems.CreatedRow | app/api/access_groups.py:158-186 | a created group has the listed caption, description, models and regions and no team, under a fresh id; the other groups stay |
| AccessGroupTheorems.UpdatedRow | app/api/access_groups.py:198-261 | an updated group has what the request gives and keeps the rest, its slug and teams always; the other groups stay |
| AccessGroupTheorems.DeletedRow | app/api/access_groups.py:265-304 | a deleted group is gone and the other groups stay |
| AccessGroupTheorems.DefaultRow | app/api/access_groups.py:308-383 | the region has the requested default and nothing else changes |
| AccessGroupTheorems.OptInsAreListed | app/api/access_groups.py:467-522 | the team is opted into exactly the groups whose slugs are listed; other teams and everything else about the groups stay |
| AccessGroupTheorems.ListAfterOptIn | app/services/access_groups.py:33-77 | so its list in a region with enforcement becomes the default and the listed groups deployed there |
| AccessGroupTheorems.TagChangesAreQueued | app/api/access_groups.py:206-295 | every live deployment whose set of deployed group slugs a request changes is marked pending and queued |
| AccessGroupTheorems.ListChangesAreQueued | app/api/access_groups.py:92-522 | every team and active region whose effective list a request changes is queued, alone or with the region |
| AccessGroupTheorems.PushesConcernTheRequest | app/api/access_groups.py:158-522 | and nothing else is pushed: only live deployments of the group's old or new members, and teams of the request or the group in their enforced regions |
| AccessGroupTheorems.MarksAreQueued | app/api/access_groups.py:55-79 | a sync column changes only to pending, only for a live deployment, and never without a queued push |
| AccessGroupTheorems.OtherTablesStay | app/api/access_groups.py:158-522 | requests touch groups, defaults and sync columns, and nothing else |
| AccessGroupTheorems.ReferencesKept | app/api/access_groups.py:105-186 | associations keep pointing at existing rows and slugs stay unique |
| AccessGroupTheorems.DefaultsKept | app/api/access_groups.py:224-295 | a default group stays in existence and deployed where it is the default |
| AccessGroupRuns.PushRecords | app/services/model_sync.py:64-175 | a push records synced, failed or not configured as it ended, and touches the proxy only where it reached it |
| AccessGroupRuns.RunKeepsSound | app/api/access_groups.py:55-522 | over any run of requests and pushes that may fail, a synced column tells the truth about the proxy, and a proxy's list is stale only where a push is queued or its last one failed |
| AccessGroupRuns.DrainedRunsAgree | app/services/access_groups.py:33-193 | from a first start, once nothing is queued, every proxy agrees with the tables wherever its last push did not fail; defaults always exist and are deployed |
| AccessGroupRuns.DrainedProxiesServeGroups | app/services/access_groups.py:33-193 | in the tables' own terms: once nothing is queued a synced deployment is tagged with exactly its deployed groups, and a team whose last push did not fail has exactly the default and its deployed opt-ins, or no restriction without a default |
| AccessGroupRuns.RetryRepairs | app/services/access_groups.py:129-193 | one retried fan-out that works puts every team of the region right, whatever failed before |
| AccessGroupRuns.GateServesLiveMembers | app/api/access_groups.py:331-375 | when a group becomes a default its tag is served on the proxy exactly if some active member is active globally |
| AccessGroupRuns.GateAcceptsUnservedGroup | app/api/access_groups.py:343-375 | a run from a first start after which a team is restricted to a name no model answers to |
| AccessGroupRuns.DefaultKeepsMembersExactly | app/api/access_groups.py:158-522 | after any accepted request a default with an active member in its region still has one there, exactly unless the request updates it to models none of which is active there |
| AccessGroupRuns.DefaultMayLoseItsMembers | app/api/access_groups.py:214-222 | a run from a first start, with every push done, after which a team is restricted to a default that an update has emptied |
| PublicFilter.FilterByAccess | app/api/public.py:670-757 | the batched filter shows each caller, for every list of regions, exactly what the per-region definition says |
| PublicFilter.ShownExactly | app/api/public.py:670-757 | exactly which models of a region's listing each caller sees, said of the tables: all for administrators and where nothing is enforced, or else the undeleted members of the default and of the team's deployed opt-ins |
| PublicFilter.KeepPieces | app/api/public.py:747-757 | the filter decides model by model and keeps the order |
| PublicFilter.AllowedGroups | app/api/public.py:705-725 | the grown dictionary holds, for each region, its default and the team's opt-ins deployed there |
| PublicFilter.NamesByGroup | app/api/public.py:727-739 | the index holds exactly the undeleted members of the groups |
| PublicFilter.FilterByAlias | app/api/public.py:647-667 | keeps a model exactly if it has one of the aliases; no filter keeps all |
| PublicFilter.ByAliasPieces | app/api/public.py:647-667 | the alias filter decides model by model and keeps the order |
| PublicFilter.AnonymousSeesLeast | app/api/public.py:673-690 | what an anonymous caller is shown is part of what any caller is shown |
| PublicFilter.FiltersCommute | app/api/public.py:1014-1015 | the two filters may be applied in either order |
| PublicFilter.ListingAgreesWithProxy | app/services/access_groups.py:33-77 | a name is shown exactly if some live model of that name carries a tag on the team's own proxy list |
| PurchaseLocks.CommitsWhileActive | app/api/budgets.py:71-103 | in every interleaving, purchase and payment rows are only committed by a request that holds its region's lock while the region is active |
| PurchaseLocks.DeactivationWaits | app/api/regions.py:263-290 | deactivating a region does nothing while a purchase holds it |
| PurchaseLocks.OneAtATime | app/api/spend.py:407-423 | two requests in one region are never in their transactions together |
| PurchaseCredits.PoolCreditsStand | app/api/budgets.py:391-480 | in every run of both endpoints, a pool credit stands in payment, purchase and ledger and is its payment's last, unless a periodic attempt with that payment failed for another team or region; every ledger entry is a credit |
| PurchaseCredits.PoolPaymentOnce | app/api/budgets.py:391-480 | in every run, a payment seen by the pool endpoint alone is credited at most once, its ledger entry, purchase and payment agree with the credit, and while marked as failed it has no top-up |
| PurchaseCredits.PeriodicPaymentOnce | app/api/budgets.py:560-569 | in every run, a payment seen by the periodic endpoint alone is credited at most once for each team and region, and its ledger entries are exactly its credits |
| PurchaseCredits.LedgerIsCredits | app/api/budgets.py:391-569 | where every payment keeps to one endpoint, the ledger is exactly the successes, entry by entry and in total |
| PurchaseCredits.LedgerTotal | app/api/budgets.py:391-480 | the sum over the ledger is the sum of the amounts answered with success |
| PurchaseAlone.PeriodicCreditsEveryRegion | app/api/budgets.py:560-569 | the same payment sent for a second region is credited again |
| PurchaseAlone.MixedEndpointsCreditTwice | app/api/budgets.py:391-448 | a failed periodic attempt elsewhere makes the pool endpoint credit a successful payment a second time |
| PurchaseAlone.PoolAlone | app/api/budgets.py:356-480 | an uninterrupted pool purchase of a new payment, or of one whose last attempt failed, is credited |
| PurchaseAlone.PoolFailsAlone | app/api/budgets.py:701-750 | one that the proxy fails, new or retried, leaves its purchase and a failed payment and no top-up in its place |
| PurchaseGates.FundedTeamsStayOpen | app/api/spend.py:2345-2385 | in every interleaving, no key of a gated team is held at zero where its ledger has a top-up |
| PurchaseGates.SuccessOpensForGood | app/api/spend.py:2345-2385 | after a success through either endpoint no key of a gated team there is ever held at zero again, whatever purchases and clears follow, if the requests with that one payment keep to one endpoint |
| PurchaseGates.OnlyUnboughtKeysAreGated | app/api/spend.py:2345-2385 | in every interleaving, a key is only put at zero by a clear of it that found no ledger entry or purchase of its team, and while there is no top-up or purchase |
| PurchaseBudgets.SuccessSetsBudget | app/api/budgets.py:646-700 | each success leaves max_budget at the team's spend plus 100 units for each cent its live entries have left, the new top-up included, and a duration of 31d, as they were at the point of the run where it asked for the spend |
| PurchaseBudgets.SuccessMatchesLedger | app/api/budgets.py:646-700 | which is the spend at the commit and what the ledger then has left, whatever other requests do in between, if nothing of the team's there is spent, consumed, expired or added meanwhile |
| PurchaseBudgets.FailureRestoresBudget | app/api/budgets.py:701-715 | in every run a failing purchase leaves the team's budget as it was when the lock was taken, or else the raise it records as left behind |
| PurchaseBudgets.WhatAFailureLeaves | app/api/budgets.py:701-715 | which is the raised budget exactly after a lost answer or a failed rollback |
| PurchaseRequests.Billing.SyncPoolKeyEffectiveBudgets | app/api/budgets.py:251-337 | every key is opened or capped whatever the others' calls do, and exactly the failed ones are returned |
| PurchaseRequests.ComputeTopupRemaining | app/core/periodic_budget_ledger_service.py:232-256 | the loop's sum is what remains of the live top-ups and the rollovers |
| PurchaseRequests.Billing.PurchasePoolBudget | app/api/budgets.py:356-480 | tables, proxies and answer are the specified outcome for every way the calls end, stale rows of a failed attempt replaced |
| PurchaseRequests.Billing.CreatePeriodicTopup | app/api/budgets.py:515-537 | the same for the periodic endpoint |
| PurchaseRequests.Billing.PurchasePeriodicTopup | app/api/budgets.py:539-750 | the part both share, from the staged rows to the commit or the compensation |
| PurchaseRequests.PoolPurchaseSetsCaps | app/api/budgets.py:251-367 | after a pool success every key has its configured cap or its team's budget; no key has a budget of its own exactly if none has a cap |
| PurchaseRequests.Billing.ClearKeyBudget | app/api/spend.py:2297-2385 | puts the key of a gated team without ledger entry or purchase row back at zero and any other under its team, dropping the cap unless a call fails |
| PurchaseRequests.FailedAttemptLiftsGate | app/core/pool_budget_service.py:89-98 | the rows that a failed pool purchase leaves already count: a clear after it opens the key |
| PurchaseRefinement.EndpointIsRun | app/api/budgets.py:356-750 | for every state, request and outcome of the calls, the endpoint ends where its events lead in the transition system |
| PurchaseRefinement.ClearIsRun | app/api/spend.py:2297-2385 | the same for clearing a key |
| PurchaseHistory.EverPurchasedExactly | app/core/pool_budget_service.py:67-98 | after any run a team counts as having purchased exactly if there was a subscription or rollover entry, or some payment's last attempt there succeeded, or some payment's last pool attempt was there |
| PurchaseHistory.GateNeedsNoAttempt | app/api/spend.py:2345-2385 | so after any run a clear gates a gated team's key again exactly if none of these happened |
| PurchaseHistory.SuccessForgotten | app/core/pool_budget_service.py:67-98 | four attempts with one payment through both endpoints after which a clear gates a key of a team that was credited |
| PurchaseHistory.PoolCreditsAgainExactly | app/api/budgets.py:391-448 | after any run, the pool endpoint credits a payment it has credited again exactly if its payment row is marked as failed, which takes a failed periodic attempt with it elsewhere |
| PurchaseHistory.PeriodicCreditsAgainExactly | app/api/budgets.py:560-569 | and the periodic endpoint credits one again in the same place exactly if its ledger entry is gone, which takes a pool request with it |
| PurchaseAnswers.PurchaseAnswer | app/api/budgets.py:356-750 | exactly when a purchase through either endpoint succeeds, when the proxy fails it, and how it is refused otherwise, changing nothing |
| PurchaseAnswers.SuccessRecords | app/api/budgets.py:539-700 | a success leaves the payment successful, the pool endpoint's purchase row, the whole amount in the ledger, and the budget at spend plus all that is left; other rows, limits and keys stay |
| PurchaseAnswers.FailureRecords | app/api/budgets.py:701-750 | a failure leaves the payment marked, the pool endpoint's purchase row, and no top-up in its place; other rows, limits and keys stay |
| PurchaseAnswers.KeysAfterPurchase | app/api/budgets.py:251-337 | each key whose call worked or landed gets its cap or inherits the budget, and a key whose call failed outright stays |
| PurchaseAnswers.ClearAnswer | app/api/spend.py:2297-2385 | exactly how a clear is answered and what it leaves: the key at zero only for a gated team without any row, the cap gone exactly with a success, nothing else changed |
| BackfillRunner.DedupeRegions | scripts/backfill_litellm_sync.py:88-97 | the loop keeps the first region of each id |
| BackfillRunner.DedupeDistinct | scripts/backfill_litellm_sync.py:88-97 | no id occurs twice, and nothing is added |
| BackfillRunner.DedupeCovers | scripts/backfill_litellm_sync.py:88-97 | and no id is lost |
| BackfillCoverage.TargetsExactly | scripts/backfill_litellm_sync.py:139-169 | a run works for a team in exactly the active regions that are shared or dedicated to it |
| BackfillCoverage.SkippedExactly | scripts/backfill_litellm_sync.py:83-85 | a user is skipped outright exactly if it is on trial or its team is gone or out of service |
| BackfillRunner.Runner.ActiveDedicatedRegionsByTeam | scripts/backfill_litellm_sync.py:151-161 | one pass gives every team its active dedicated regions in order |
| BackfillRunner.Runner.EnsureTeamExists | scripts/backfill_litellm_sync.py:171-202 | creates a missing team with its bootstrap budget, only in a real run, and says whether it did |
| BackfillRunner.Runner.PhaseTeams | scripts/backfill_litellm_sync.py:204-245 | writes, counts and failures are those of the flat row-by-row definition, the limit's early return included |
| BackfillRunner.Runner.PhaseUsers | scripts/backfill_litellm_sync.py:247-363 | with a roster cache that is never refreshed, writes, counts and failures are exactly those of reading every roster every time |
| BackfillTheorems.UsersAddUp | scripts/backfill_litellm_sync.py:247-363 | from any balanced counts, every processed row is counted once more as changed, skipped or failed |
| BackfillTheorems.UsersSummaryAddsUp | scripts/backfill_litellm_sync.py:247-363 | so processed equals changed plus skipped plus failed in every summary |
| BackfillCoverage.TeamRowCounts | scripts/backfill_litellm_sync.py:219-241 | a real team row counts as changed exactly if it wrote, and as failed exactly if it is reported |
| BackfillCoverage.UserRowCounts | scripts/backfill_litellm_sync.py:284-363 | a real user row counts as failed exactly if it is reported, or else as changed exactly if it wrote, or else as skipped |
| BackfillTheorems.LimitIsKeptExactly | scripts/backfill_litellm_sync.py:262-285 | the users phase stays within its limit exactly if there are no more users than that or the one that reaches it is not skipped; a limit below one counts as one |
| BackfillTheorems.LimitIsOvershot | scripts/backfill_litellm_sync.py:262-285 | two skipped users are both processed under a limit of one |
| BackfillTheorems.TeamsKeepTheLimit | scripts/backfill_litellm_sync.py:204-245 | the teams phase processes as many rows as there are, but no more than the limit, or one |
| BackfillTheorems.DryRunWritesNothing | scripts/backfill_litellm_sync.py:194-202 | neither phase of a dry run changes a proxy |
| BackfillTheorems.UsersPrediction | scripts/backfill_litellm_sync.py:247-363 | without failing calls the users phase's dry counts are the real ones exactly if no reached user's team is missing |
| BackfillTheorems.MissingTeamIsMispredicted | scripts/backfill_litellm_sync.py:247-363 | a concrete database with a missing team, where the dry run promises a change and the real run fails |
| BackfillTheorems.DryRunPredicts | scripts/backfill_litellm_sync.py:204-363 | over both phases the teams' counts agree, and the users' exactly if the real teams phase leaves every reached user's team in place |
| BackfillTheorems.FullRunHasAllTeams | scripts/backfill_litellm_sync.py:204-245 | which an unlimited run over all teams does |
| BackfillCoverage.FullRunCovers | scripts/backfill_litellm_sync.py:204-363 | after an unlimited, unscoped real run without failing calls every team in service is on the proxy of every region that serves it, and every active user but those of trials is where it belongs, as a member of its team |
| BackfillCoverage.NothingElsewhere | scripts/backfill_litellm_sync.py:204-363 | whatever fails and however a run is limited or scoped, teams and users are only ever put where they belong |
| BackfillTheorems.BootstrapBudget | scripts/backfill_litellm_sync.py:184-202 | whatever fails, every team there after the teams phase and not before is that of a row in scope and starts empty, at zero for the pool duration if gated and without a budget if not |
| BackfillTheorems.ExistingTeamsKept | scripts/backfill_litellm_sync.py:204-245 | the teams phase leaves every existing team's budget, duration and members alone |
| BackfillTheorems.SecondRunIsIdle | scripts/backfill_litellm_sync.py:204-363 | a second real run, whatever its limit and scope, writes nothing and reports no change |
| Association.Session.Associate | app/api/regions.py:383-550 | tables, rosters and answer are the specified outcome for every combination of failing commits and calls |
| Association.Session.Disassociate | app/api/regions.py:553-616 | the same for removing a region |
| Association.Session.AddMembers | app/core/litellm_user_sync.py:191-248 | the loop adds the users before the first failing call, trial users apart, in an active region only |
| Association.Session.RemoveMembers | app/core/litellm_user_sync.py:251-302 | and removes them likewise |
| AssociationTheorems.PrimaryStaysListed | app/api/regions.py:383-616 | over every run, whatever fails, a team's primary region is on its allowlist |
| AssociationTheorems.FailureRestores | app/api/regions.py:440-518 | after a failure the tables are the old ones exactly if no proxy call failed or the compensating commit worked |
| AssociationTheorems.AssociationLands | app/api/regions.py:413-550 | a success makes the region primary and listed, drops the previous primary's row unless the clean-up fails, keeps all other rows, and puts the team's users on the roster |
| AssociationTheorems.AssociationAnswer | app/api/regions.py:383-550 | exactly how an association is answered, what stays committed if its undoing fails, and which users are on the roster afterwards, whatever the answer |
| AssociationTheorems.DisassociationLands | app/api/regions.py:553-616 | a success removes one row, never the primary's, and the team's users from the roster |
| AssociationTheorems.DisassociationAnswer | app/api/regions.py:553-616 | the same for a removal |
| AssociationTheorems.OtherTeamsUntouched | app/api/regions.py:383-616 | no request touches another team's rows, primary region or rosters |
| AssociationTheorems.SwitchingBack | app/api/regions.py:521-548 | switching back to the previous region is refused exactly if the clean-up failed |
| AssociationTheorems.NeverBlockedForGood | app/api/regions.py:553-616 | and removing the stale row first always makes it possible |
| Chunker.ChunkSummary | scripts/check_missing_models.py:215-271 | for every summary and positive limit the loops end, each chunk is within the limit, the chunks with the breaks between them are the summary, a summary that fits is one chunk, every section that fits is whole in a chunk, and so is every line that fits of one that does not; if all sections fit, no two neighbouring chunks would fit into one |
| Chunker.ChunkLines | scripts/check_missing_models.py:231-258 | an oversized section is cut into chunks within the limit that lose only line breaks, every line that fits being whole in one; if all lines fit, no two neighbours would fit into one |
| Chunker.CutLine | scripts/check_missing_models.py:241-247 | a line beyond the limit is cut into pieces of exactly the limit until the rest fits, losing nothing |
| Chunker.ReassembledStripped | scripts/check_missing_models.py:215-271 | newlines apart, the concatenated chunks are the summary |
| Chunker.JoinSplit | scripts/check_missing_models.py:225-237 | joining what was split on a separator gives the text back |
| Chunker.SplitParts | scripts/check_missing_models.py:225-237 | and no part of the split contains the separator |

## Left out

- FastAPI routing, authentication, role checks, request schemas, logging, audit rows and response bodies beyond
  the fields named above: plumbing around the state changes. The texts of errors and of `sync_error`.
- Rows are values in maps held by one class per session, not heap objects of their own: the model does not capture
  aliasing between ORM objects. The session is configured not to flush by itself; where the apply endpoint queries
  rows it has changed but not flushed, the pushes such a query could miss or add are owed for other reasons, and
  the model reads the session's own rows.
- Soft-deleted model rows in the catalog, autoincrement ids (a group's id sequence and a purchase row's identity
  apart), the order of sorted response lists, and which of several errors is reported first in a bad request.
- Equality of numbers across Python types (`1 == True == 1.0`) and lower-casing outside ASCII.
- Two background pushes of the same deployment or list running at once: a push is one step that reads the tables,
  writes the proxy and its column. Queued tasks lost with the process.
- Changes of teams, deployments and regions by other endpoints during a run of access-group requests.
- `_apply_access_groups` in the catalog has no guard on defaults and re-syncs no team, so the default-group
  invariant and the completeness of team pushes are stated of the access-group endpoints only.
- The catalog queues some pushes without marking the deployment pending; nothing is claimed about that column there.
- Purchases: which ledger entries spend is drawn from, top-up expiry arithmetic (a top-up is live or not), the
  webhook that also writes payments, currencies and dates. Subscription and rollover entries are kept as one number
  for each team and region, which any event of the world may set. A rollback call that fails is taken not to have landed. Reading the payment row and writing it is one step, so
  a race lost there shows up as a crash of the request. Clearing a key of a team that is not gated takes no lock
  and is modelled only uninterrupted. Key creation takes no lock: the gate is stated for a fixed set of keys.
- PurchaseGates.FundedTeamsStayOpen: is about teams with a top-up there; the keys of a team that only has a
  subscription are opened by the webhook that adds it, which takes no region lock.
- Chunker.ChunkSummary: takes a positive limit, as its one caller's default is; with zero the hard cuts would not end.
- The backfill's keys and ungate phases, which repeat the same pattern. Each region is taken to have its own
  proxy, and a team's id there is kept as the pair it is formatted from.
- Users created on a proxy by an association, and the model list a new team is created with; only rosters are kept.
- The two monthly-budget formulas, distributed locking, the caches and name heuristics of the public listing,
  spend reports, trial sign-up, and the conversion of dedicated regions: strings, reports or best-effort code.
