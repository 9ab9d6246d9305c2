# A verified model of the cloud monitoring backend

This project models, in Dafny, the rule engines of the backend that keep state between runs, and the
arithmetic under them. It proves what every step and every run of them keeps.

| file | what it models |
|---|---|
| `AlertTypes.dfy` | alert types, their text names, per-user notification preferences |
| `Conditions.dfy` | threshold overrides, the three-tier comparison, the conditions a deployment or project desires |
| `Alerts.dfy`, `Ownership.dfy` | alert rows and their scopes; who may see, owns and is told about an alert |
| `Dispatcher.dfy` | notification fan-out with memoised posts and the do-not-disturb window |
| `AlertLifecycle.dfy` | the alerts table as a value, the atomic steps on it, exact agreement with the desired conditions |
| `AlertTheorems.dfy` | conservation, frames, idempotence, acknowledgement |
| `AlertRuns.dfy` | the evaluators as tasks, and safety over all interleavings |
| `AlertMeaning.dfy` | what is alerting after an evaluation, said of the readings and the thresholds alone |
| `AlertNotices.dfy` | inbox entries over whole runs, and the optimization alert that two jobs fight over |
| `AlertEvaluation.dfy` | the mutable alerts table, its evaluators and the whole evaluation batch |
| `Autoscaler.dfy` | the recommendation engine and the replica and memory targets |
| `Optimization.dfy` | the recommendation lifecycle: cooldown, dismissal, auto-apply, mirrored alert |
| `Forecaster.dfy` | month aggregation and the least-squares forecast |
| `Discovery.dfy`, `DiscoveryService.dfy` | the persisted resource index and the passes that reconcile it |
| `Calendar.dfy`, `Decimals.dfy` | billing months, date bounds, budget window, months as text |
| `CostFetchers.dfy`, `CostSync.dfy` | how billing answers become cost rows, and what a synchronisation can change |
| `Usernames.dfy`, `Tokens.dfy` | the username loop of the sign-up; accounts with their verification and reset links |
| `Common.dfy` | options, small sequence predicates, rounding |

## How to read the model

- Code that changes rows in place is a class with the rows as a field (`AlertStore`,
  `RecommendationStore`, `ResourceIndex`, `CostTable`, `ThresholdRow`, `Accounts`), and each method is proved equal
  to a function on values; the laws are lemmas about those functions. Expressions stay functions.
- Those functions have a meaning of their own, stated without them: `AlertMeaning.dfy` says what is alerting by
  readings and thresholds, `CarriedOut` what an evaluation of a deployment does by its rows, `Forecasts` what a
  forecast is by its line, `FannedOut` who is sent what by settings and outcomes, `Searched` which regions are
  searched. The contracts of the methods promise it.
- Floating-point numbers are reals. `round(x, k)` is rounding to the nearest multiple, ties to the even one.
- Instants are integers. One evaluation of one scope is one atomic step, as it ends in one commit. A step
  takes its clock reading as a parameter; a whole batch uses one instant.
- A row's primary key is its position: no modelled operation deletes rows.
- Alert type strings are a datatype with a function to their text; the text is proved injective and
  recognised by the code that parses it, so comparing types is comparing strings.
- The deployment, project, security and latency/error-rate evaluators share one resolve-then-raise cycle.
  They differ in the rows they answer for (`Domain`) and in whether severities are compared
  (`bySeverity`). The node, container and optimization alerts are the on/off cycle, proved to be a special case.
- Sessions do not flush automatically. Lookups of the optimization step are therefore made on the rows as
  stored before the step. In the alert cycle the rows resolved by the sweep have types that are never
  looked up in the same step, so reading the updated rows gives the same answer.
- Providers, the cluster, the message channels, time zones and settings are parameters.

## Where the code does something other than its documentation suggests

- A posted Slack or Telegram message is remembered by what the user configured, not by where it goes after
  falling back to the platform's own credentials, so one destination can be posted to twice
  (`Dispatcher.PostedOncePerDestination` says exactly when).
- An acknowledged alert whose condition persists is raised again by the next evaluation
  (`AlertTheorems.AcknowledgedIsRaisedAgain`).
- A deployment's evaluation resolves the alert that the optimization service raised for it
  (`AlertRuns.OptimizationAlertSwept`), so while a recommendation is pending the two jobs raise and notify one
  alert per round for ever (`AlertNotices.OptimizationAlertChurns`).
- A cost recommendation lasts until the next evaluation of its deployment (`Optimization.CostSuggestionLastsOneRun`).
- One evaluation can advise growing and shrinking at once, exactly for replica counts outside 1 to the
  maximum (`Autoscaler.ContradictoryIff`). The memory target can fire again unless the thresholds lie far enough
  from it (`Autoscaler.MemoryAlwaysSettlesIff`); with the defaults it does in two narrow ranges below 0.2 MB.
- The cooldown is kept for each recommendation type. The memory limit has two types, so unlike the replica
  count it can change twice within one cooldown, exactly when both are applied automatically
  (`Optimization.MemoryRateIff`); half the rate always holds (`Optimization.MemoryChangeRate`).
- A second fetched cost entry for the same service and month is dropped, not added
  (`CostSync.StoredIsFetchedIff`). IBM loses spending exactly when a report charges two resources under one name,
  DigitalOcean exactly when two invoices of one month share a product (`CostSync.ReportsStoredIff`,
  `CostSync.InvoicesStoredIff`).
- An Azure answer whose first column is the billing month is not dated by it (`CostFetchers.BillingMonthUsedIff`).
- Closed months are chosen by the local date and the budget month by the UTC date; a synchronisation can
  touch the current budget exactly when the budget month counts as closed (`CostSync.ClosedMonthsLeaveBudgetIff`).
- The username loop need not end: a base of 50 characters that is taken has no other candidate
  (`Usernames.FullBaseEndsIff`).
- The alerts table would admit a row with several scopes, on which the listing and the access check can disagree
  (`Ownership.ListingMatchesAccess`). No modelled writer creates such a row: every reachable row has one scope at
  most (`RowOk` in `AlertLifecycle.dfy`, kept by `AlertRuns.StepSafe`), so there they agree (`Ownership.OwnershipAgrees`).

## Model

| member | source | states |
|---|---|---|
| AlertTypes.NamesRecognised | backend/app/notifications/alert_preferences.py:89-104 | Every type the platform raises is parsed back from its text as its own category and tier; the region notice is the only unknown one |
| AlertTypes.NameInjective | backend/app/notifications/alert_preferences.py:89-104 | Two alert types never share a text, so a lookup by text finds one type only |
| AlertTypes.TextTestsSelectMetrics | backend/app/services/alert_evaluation_service.py:211-321 | The text patterns used to pick "their" alerts select exactly the security metrics and exactly the latency and error-rate metrics |
| AlertTypes.LoadPreferences | backend/app/notifications/alert_preferences.py:70-86 | The loop yields, for every category, the defaults overlaid by what was stored for it, also for missing or unreadable JSON |
| AlertTypes.SilencedOnlyExplicitly | backend/app/notifications/alert_preferences.py:107-124 | Out-of-band delivery is suppressed if and only if the stored preferences switch off the category or the tier explicitly |
| Conditions.ThresholdRow.Update | backend/app/services/cloud_account_alert_threshold_service.py:49-91 | A partial update is kept if and only if the patched row keeps every metric's effective tiers strictly increasing; otherwise the row is unchanged, so the ordering is an invariant |
| Conditions.PatchMetric | backend/app/services/cloud_account_alert_threshold_service.py:54-58 | The loop over the fields of a metric changes exactly those in the payload: absent leaves alone, null goes back to the default |
| Conditions.EveryTierCanFire | backend/app/services/cloud_account_alert_threshold_service.py:66-85 | Each of the three tiers is raised by some value if and only if the thresholds strictly increase |
| Conditions.TierCountsThresholds | backend/app/services/alert_evaluation_service.py:646-674 | For every value the tier is the number of thresholds reached, if and only if the thresholds do not decrease |
| Conditions.TierMonotone | backend/app/services/alert_evaluation_service.py:646-674 | A higher value never gives a lower tier |
| AlertMeaning.TieredIff | backend/app/services/alert_evaluation_service.py:646-674 | A tiered condition is raised exactly at the highest tier whose own or default threshold the reading has reached, with its severity and that threshold |
| AlertMeaning.LimitIff | backend/app/services/alert_evaluation_service.py:676-735 | A limit-based condition is raised exactly for a positive limit, at the highest tier whose percentage of the limit is used |
| AlertMeaning.AggregateIff | backend/app/services/alert_evaluation_service.py:737-800 | The aggregate is raised exactly if some limit is set, at the highest tier that CPU or the usage of one of the limits has reached |
| AlertMeaning.DesiredIff | backend/app/services/alert_evaluation_service.py:538-626 | A condition is desired for a deployment if and only if its readings warrant that type, severity and threshold: CPU, memory, disk, network, storage by the disk, the aggregate, pod restarts, anomaly and failure risk |
| Conditions.CloudUsageIsHighestTier | backend/app/services/alert_evaluation_service.py:737-800 | Under shared thresholds and limits that are not negative, the aggregate tier is the highest of the CPU, memory, disk and network tiers, and none at all when no memory, disk or network limit is configured |
| Ownership.OwnershipAgrees | backend/app/services/alert_service.py:19-35 | For an ordinary user the listing filter, the access check, the displayed owner and (while active) the notified recipient pick out the same alerts; superusers see every alert and are told about those that nobody owns |
| Ownership.ListingMatchesAccess | backend/app/repositories/alert_repository.py:127-148 | For a row with any scopes, listing and access agree for every user if and only if all its scopes lead to the same owner |
| Dispatcher.QuietWindowIsCircular | backend/app/notifications/dispatcher.py:106-118 | The window test holds if and only if the time since its start, around the clock, is less than its length; equal ends are empty |
| Dispatcher.PostOnce | backend/app/notifications/dispatcher.py:200-238 | A memoised post has the outcome of its key and is made only when the key is new |
| Dispatcher.DispatchTo | backend/app/notifications/dispatcher.py:142-246 | One turn of the loop adds exactly the entries that this recipient gets - the dashboard one always; the others only with instant alerts on, outside the window, with the type not switched off, on an enabled channel, and but for SMS when the message got through - and makes a post only if this recipient is the reason for it |
| Dispatcher.Dispatch | backend/app/notifications/dispatcher.py:121-251 | Every recipient has exactly the entries that their own settings and the outcomes give them, each once, and nobody else has any; each key is posted to once, in order of first need, exactly if some recipient who wants to be told asks for it |
| Dispatcher.DashboardNeverLost | backend/app/notifications/dispatcher.py:141-158 | Each recipient gets exactly one dashboard row and nobody else any, whatever the quiet hours, preferences and failures |
| Dispatcher.RowsMean | backend/app/notifications/dispatcher.py:141-246 | For distinct users, the rows of an alert are exactly the entries each recipient gets by window, switches, preferences, channels and outcomes |
| Dispatcher.PostedOncePerDestination | backend/app/notifications/slack_notifier.py:29-62 | Each configured destination is really posted to at most once if and only if no two recipients have filled in their settings differently in a way that comes to the same: one leaves blank what the other copied from the platform |
| Dispatcher.CopiedTokenPostsTwice | backend/app/notifications/telegram_notifier.py:31-66 | For every bot and chat: when one of two users of a chat has copied the platform's bot token, the chat gets the alert twice |
| AlertLifecycle.EvaluateSettles | backend/app/services/alert_evaluation_service.py:95-137 | After an evaluation the alerting (type, severity) pairs of its rows are exactly the desired ones, and the table invariant holds |
| AlertLifecycle.OnlyOneActive | backend/app/repositories/alert_repository.py:16-74 | A first-match lookup cannot miss anything: at most one active alert of a type exists in a scope |
| AlertMeaning.DeploymentEvaluated | backend/app/services/alert_evaluation_service.py:95-137 | After a deployment's evaluation its active alerts are exactly those its readings warrant; what was resolved carries this moment, and so does what is new, with the threshold that applied |
| AlertMeaning.ProjectMeans | backend/app/services/alert_evaluation_service.py:466-536 | A project in agreement shows a cost alert exactly at the highest tier whose percentage of a positive budget is spent |
| AlertMeaning.UserMeans | backend/app/services/alert_evaluation_service.py:253-289 | A user in agreement shows exactly the alert that the number of failed logins warrants by the platform's thresholds |
| AlertMeaning.HttpMeans | backend/app/services/alert_evaluation_service.py:291-389 | The platform in agreement shows exactly the latency and error-rate alerts that the readings warrant, none for a missing reading |
| AlertMeaning.SwitchMeans | backend/app/services/alert_evaluation_service.py:435-464 | An on/off alert shows, with its severity, exactly while it is on |
| AlertTheorems.BatchAccounts | backend/app/services/alert_evaluation_service.py:52-93 | Over any batch, active alerts after are those before plus created minus resolved, and the notifications reported are the rows added |
| AlertTheorems.EvaluateWithin | backend/app/services/alert_evaluation_service.py:95-137 | An evaluation leaves every row outside its own domain untouched and adds rows only inside it |
| AlertTheorems.IdleIffSettled | backend/app/services/alert_evaluation_service.py:95-137 | An evaluation changes nothing and sends nothing if and only if its rows already agree with what is desired |
| AlertTheorems.BatchSettles | backend/app/services/alert_evaluation_service.py:52-93 | After a batch every evaluator's rows agree with its desired conditions: later ones do not disturb earlier ones |
| AlertTheorems.BatchIdempotent | backend/app/services/alert_evaluation_service.py:52-93 | Evaluating the same tasks again, later and in any order, creates, resolves and sends nothing |
| AlertTheorems.AcknowledgedIsRaisedAgain | backend/app/repositories/alert_repository.py:16-28 | From a settled state, acknowledging an active alert makes the next evaluation raise exactly one new alert of the same type and severity |
| AlertRuns.SwitchIsEvaluation | backend/app/services/alert_evaluation_service.py:435-464 | The on/off cycle does exactly what the general resolve-and-raise evaluation would |
| AlertRuns.OptimizationAlertSwept | backend/app/services/alert_evaluation_service.py:104-109 | No optimization alert of a deployment is active after that deployment's evaluation |
| AlertRuns.StorageMirrorsDisk | backend/app/services/alert_evaluation_service.py:548-585 | After any evaluation a deployment has an active storage alert exactly when it has an active disk alert of the same tier and severity |
| AlertNotices.OneEntryPerRecipient | backend/app/notifications/dispatcher.py:121-158 | In every reachable table each alert has exactly one inbox entry for each user who was its recipient when it was raised, and none for anyone else |
| AlertNotices.SentMeans | backend/app/notifications/dispatcher.py:83-104 | Raising an alert notifies exactly its recipients, each by their own settings and their own local time |
| AlertNotices.OptimizationAlertChurns | backend/app/services/optimization_service.py:122-180 | While a recommendation stays pending, n rounds of both jobs raise n optimization alerts, of which one is active at the end, and notify an active owner at least n times |
| AlertRuns.StepSafe | backend/app/services/alert_service.py:87-106 | Every evaluation, region notice and user action keeps the table invariant and only moves rows forward |
| AlertRuns.ReachableStatesAreSafe | backend/app/services/alert_evaluation_service.py:95-464 | In every state reachable by any interleaving: at most one active alert per scope and type, at most one active tier per metric, and exactly the resolved rows carry a resolution time |
| AlertRuns.RunsMoveForward | backend/app/services/alert_service.py:87-106 | Along any run rows are only added, their history is immutable, and status only moves active, acknowledged, resolved |
| AlertEvaluation.AlertStore.GetActive | backend/app/repositories/alert_repository.py:16-74 | The lookups return the first active row of the type in the scope, or nothing when there is none |
| AlertEvaluation.AlertStore.ResolveStale | backend/app/services/alert_evaluation_service.py:104-109 | The loop resolves exactly the active rows of the domain whose type is no longer desired and counts them |
| AlertEvaluation.AlertStore.RaiseCondition | backend/app/services/alert_evaluation_service.py:111-134 | One desired condition: nothing if already alerting at that severity, otherwise a new alert after closing one of another severity |
| AlertEvaluation.AlertStore.EvaluateTask | backend/app/services/alert_evaluation_service.py:95-185 | A whole evaluation equals its specification, leaves its rows in exact agreement, touches nothing else, marks what it resolves and raises with its own moment, and reports balanced counters |
| AlertEvaluation.AlertStore.EvaluateSwitch | backend/app/services/alert_evaluation_service.py:435-464 | The on/off evaluator equals the general evaluation of its one condition and keeps the same guarantees |
| AlertEvaluation.AlertStore.SecurityUsers | backend/app/services/alert_evaluation_service.py:198-217 | The users visited are those with failed logins together with those having an active security alert |
| AlertEvaluation.AlertStore.EvaluateSecurity | backend/app/services/alert_evaluation_service.py:187-251 | In whatever order the set is walked, the result is the batch of the visited users' tasks |
| AlertEvaluation.AlertStore.EvaluatePlatform | backend/app/services/alert_evaluation_service.py:291-433 | A missing latency or error-rate reading resolves, a missing cluster reading skips its step |
| AlertEvaluation.AlertStore.UpdateStatus | backend/app/services/alert_service.py:37-106 | A missing alert, one the user may not access and a transition that is not allowed are told apart and change nothing; any other move that is not back to active and not out of resolved is carried out, with a resolution time exactly when resolving |
| AlertEvaluation.AlertStore.AnnounceRegions | backend/app/services/cloud_region_sync_service.py:125-143 | One active informational notice for the user is added and sent without any duplicate check |
| AlertEvaluation.AlertStore.EvaluateAll | backend/app/services/alert_evaluation_service.py:52-93 | After the whole batch every deployment, project and user and the platform show exactly the alerts that their readings warrant (an unobserved cluster reading leaves its alert as it was); the counters are what happened to the alerts and notifications tables |
| AlertEvaluation.PlanExplained | backend/app/services/alert_evaluation_service.py:52-93 | Whatever the table was, the plan of a batch leaves every scope with exactly the alerts that its readings warrant |
| AlertEvaluation.EvaluateAllIdempotent | backend/app/services/alert_evaluation_service.py:52-93 | A second whole batch on unchanged readings creates, resolves and sends nothing, including its own choice of users to check |
| Autoscaler.AdviceMeans | backend/app/optimization/recommendation_engine.py:47-151 | Each kind is recommended exactly when it is called for: more or fewer pods while their number can still change, CPU when it cannot, memory by its share of the limit, scaling exactly when another permitted count serves the load better; targets are that best count, and the limit that brings usage to the target share, to one decimal |
| Autoscaler.KindsDistinct | backend/app/optimization/recommendation_engine.py:56-149 | An evaluation never gives two recommendations of one type |
| Autoscaler.ScalingSettles | backend/app/optimization/recommendation_engine.py:128-149 | With the load conserved, applying the replica target once makes the next evaluation recommend no scaling |
| Autoscaler.TargetIsLeast | backend/app/optimization/recommendation_engine.py:135-138 | The target is the least permitted replica count that brings CPU down to the target, and the maximum when none does |
| Autoscaler.OnlyVerticalAdviceRemains | backend/app/optimization/recommendation_engine.py:56-95 | After applying the target only vertical CPU advice can remain, exactly when even the maximum count is hot or the whole load is idle for one replica |
| Autoscaler.ContradictoryIff | backend/app/optimization/recommendation_engine.py:56-149 | One evaluation advises growing and shrinking if and only if a hot deployment exceeds the maximum or an idle one has no replica |
| Autoscaler.OutcomeMonotone | backend/app/optimization/recommendation_engine.py:128-149 | For a legal replica count, a higher CPU never argues for fewer replicas |
| Autoscaler.MonotoneIffLegal | backend/app/optimization/recommendation_engine.py:128-149 | That monotonicity holds for every pair of readings if and only if the replica count lies between 1 and the maximum |
| Autoscaler.BlendingOnlyRaises | backend/app/services/optimization_service.py:285-314 | Blending in a forecast never argues for fewer replicas than the actual average alone |
| Autoscaler.MemoryTargetMovesLimit | backend/app/optimization/recommendation_engine.py:97-126 | For all settings, a memory recommendation moves the limit in its direction up to the rounding of the target, and strictly for every limit large enough for one decimal |
| Autoscaler.MemorySettles | backend/app/optimization/recommendation_engine.py:97-126 | For all settings, the rounded target never fires again for averages large enough compared with the distances of the target to both thresholds |
| Autoscaler.MemoryAlwaysSettlesIff | backend/app/optimization/recommendation_engine.py:97-126 | For all settings, it never fires again for any average if and only if the upper threshold is at least 3/2 and the lower at most 1/2 of the target |
| Autoscaler.MemoryRefiresIff | backend/app/optimization/recommendation_engine.py:97-126 | With the default settings it fires again if and only if the average lies in one of two ranges below 0.2 MB |
| Optimization.RecommendationStore.EvaluateDeployment | backend/app/services/optimization_service.py:182-255 | Without recent usage nothing changes; otherwise a kind gets one new row exactly if it is recommended, none of its rows is pending and none was settled within the cooldown, applied with its target written exactly if that is enabled, else pending; a pending row is dismissed exactly if its kind is no longer recommended; the cost suggestion likewise, with its savings; the counters are those rows |
| Optimization.RecommendationStore.CreateRows | backend/app/services/optimization_service.py:217-249 | The create loop adds one row for each recommended kind that is neither pending nor settled within the cooldown, applied or pending as configured, and writes exactly the targets of the applied ones |
| Optimization.EvaluationCarriesOut | backend/app/services/optimization_service.py:182-255 | The whole effect of an evaluation on old rows, new rows, the cost suggestion and the deployment, stated on the rows and the recommendations |
| Optimization.RecommendsIff | backend/app/services/optimization_service.py:191-201 | The engine recommends a kind exactly when it is called for at the higher of the average and a confident forecast |
| Optimization.RecommendedAnewIff | backend/app/services/optimization_service.py:182-252 | From averages and forecasts to the table: a kind gets a new row if and only if it is called for, none is pending and none was settled within the cooldown; never two |
| Optimization.RecommendationStore.UpdateStatus | backend/app/services/optimization_service.py:52-120 | A missing recommendation, a project the user may not access and one that is no longer pending are told apart and change nothing; otherwise the requested status and the moment are stored |
| Optimization.RecommendationStore.SyncAlert | backend/app/services/optimization_service.py:145-180 | The mirrored alert is active afterwards exactly when something is pending, by the general evaluation of that one condition |
| Optimization.CooldownOverRuns | backend/app/repositories/optimization_recommendation_repository.py:18-54 | Over every run, of two recommendations of one deployment and type the earlier is resolved and the later created strictly more than the cooldown after that |
| Optimization.CreationRate | backend/app/services/optimization_service.py:217-252 | m creations of one type for one deployment need a span of more than m - 1 cooldowns |
| Optimization.SingleWriterRate | backend/app/services/optimization_service.py:257-283 | Over every run, a setting that only one kind of recommendation can change on the spot is changed m times only in a span of more than m - 1 cooldowns |
| Optimization.AutoScalingRate | backend/app/services/optimization_service.py:257-283 | Over every run, m automatic changes of a replica count need a span of more than m - 1 cooldowns |
| Optimization.MemoryChangeRate | backend/app/services/optimization_service.py:257-283 | Over every run and for every configuration, m automatic changes of a memory limit need a span of more than m/2 - 1 cooldowns |
| Optimization.MemoryRateIff | backend/app/services/optimization_service.py:257-283 | The memory limit has the rate bound of the replica count in every run if and only if not both of its recommendations are applied automatically |
| Optimization.CostSuggestionLastsOneRun | backend/app/services/optimization_service.py:325-363 | A pending cost suggestion is dismissed by the next evaluation and not created again in it |
| Optimization.MemoryLimitMayFlip | backend/app/services/optimization_service.py:208-249 | With both applied automatically, for every cooldown and any two instants there is a run that changes the limit at both |
| Forecaster.AggregateByMonth | backend/app/optimization/cost_forecaster.py:28-35 | The result lists exactly the months that occur, strictly increasing, each with its own total |
| Forecaster.AggregationConserves | backend/app/optimization/cost_forecaster.py:28-35 | The monthly totals add up to the total of all costs |
| Forecaster.AggregationIsOrderFree | backend/app/optimization/cost_forecaster.py:28-35 | Any permutation of the cost rows has the same aggregate |
| Forecaster.DenominatorClosed | backend/app/optimization/cost_forecaster.py:54-61 | The denominator of the slope is n(n^2 - 1)/12, positive from two months on |
| Forecaster.FitSolvesNormalEquations | backend/app/optimization/cost_forecaster.py:57-62 | The computed intercept and slope solve the two normal equations, which are not degenerate |
| Forecaster.FitIsOptimal | backend/app/optimization/cost_forecaster.py:54-62 | No line has a smaller sum of squared residuals than the fitted one, and no other line has the same |
| Forecaster.LinearDataIsExtrapolated | backend/app/optimization/cost_forecaster.py:54-64 | Exactly linear data is fitted and extrapolated exactly, up to the clamp at zero |
| Forecaster.ForecastNextMonth | backend/app/optimization/cost_forecaster.py:38-72 | With one month, its total; otherwise a line that no other line betters in squared residuals over the monthly totals, continued by one month but not below zero; prediction and slope rounded to cents; as many periods as months; an error exactly for an empty history |
| Forecaster.ForecastIsOrderFree | backend/app/optimization/cost_forecaster.py:38-72 | Prediction, method, number of periods and slope are the same for every order of the cost rows |
| Discovery.RunLife | backend/app/repositories/cloud_resource_repository.py:58-125 | After any passes over any scopes, with failures, crashes and duplicates, what the index says about an identity depends only on the passes over its own scope |
| Discovery.ActiveIffAlive | backend/app/repositories/cloud_resource_repository.py:58-125 | An identity is active if and only if some pass saw it and no complete listing since has missed it |
| Discovery.LastListingDecides | backend/app/services/cloud_resource_discovery_service.py:207-256 | The active identities of a scope are those of its last successful listing, and those a later crashed pass had already stored |
| Discovery.FirstSightingIsKept | backend/app/repositories/cloud_resource_repository.py:92-113 | The first-seen time is for ever that of the first pass that saw the identity |
| Discovery.LastSightingIsCurrent | backend/app/repositories/cloud_resource_repository.py:115-125 | The last-seen time and the details are those of the last pass that saw it, duplicates resolved in favour of the last item |
| Discovery.RunKeeps | backend/app/repositories/cloud_resource_repository.py:58-125 | Rows are never removed, identities stay unique, identity and first-seen time never change |
| Discovery.LastSeenNeverDecreases | backend/app/repositories/cloud_resource_repository.py:115-125 | The last-seen time never decreases while the passes carry non-decreasing times |
| DiscoveryService.ResourceIndex.GetByIdentity | backend/app/repositories/cloud_resource_repository.py:18-27 | Returns the first row with the identity, or nothing when there is none |
| DiscoveryService.ResourceIndex.Upsert | backend/app/repositories/cloud_resource_repository.py:75-125 | Creates the missing row or overwrites the details, the last-seen time and the active flag of the existing one, and returns its id |
| DiscoveryService.ResourceIndex.MarkInactiveExcept | backend/app/repositories/cloud_resource_repository.py:44-73 | For any set of seen ids, exactly the rows of the scope outside it become inactive |
| DiscoveryService.ResourceIndex.UpsertAll | backend/app/services/cloud_resource_discovery_service.py:238-251 | Stores the items in order and returns exactly the ids of the rows that carry their names, duplicates included |
| DiscoveryService.ResourceIndex.DiscoverCategory | backend/app/services/cloud_resource_discovery_service.py:207-256 | One category: reconciled and counted when listed, untouched when not yet supported or failed, an error reported exactly for a failure |
| DiscoveryService.ResourceIndex.DiscoverAccount | backend/app/services/cloud_resource_discovery_service.py:101-130 | An account set to one region is searched in that region, one set to all in every known region, and refused exactly when none is known; each category of each region has its one call, in order, up to the first crash; the report and the last outcome say exactly which failures occurred |
| DiscoveryService.PlanAt | backend/app/services/cloud_resource_discovery_service.py:109-116 | Every region and category gets its one listing call, region by region |
| DiscoveryService.PerformedVisits | backend/app/services/cloud_resource_discovery_service.py:109-116 | The passes carried out are one call for every category of every region at its place, up to the first crash, which ends them |
| DiscoveryService.FailuresIff | backend/app/services/cloud_resource_discovery_service.py:81-82 | A failure is reported if and only if some call failed with an error other than "not yet supported", with its category, region and message |
| DiscoveryService.DiscoveryKeepsOthers | backend/app/services/cloud_resource_discovery_service.py:101-130 | Whatever part of its passes a discovery of one account carries out, every resource of every other account stays as it was |
| DiscoveryService.ResourceIndex.DiscoverAll | backend/app/services/cloud_resource_discovery_service.py:132-158 | Every account is searched in its own regions whatever happens to the others, and the counts are those of the discoveries in which every call was answered and of the rest |
| Calendar.SubtractIsMinus | backend/app/integrations/aws_cost_explorer.py:64-69 | Subtracting months is subtraction on the line of months, defined exactly when the result is a supported date |
| Calendar.SubtractComposes | backend/app/integrations/azure_cost_management.py:57-62 | Subtractions compose, and a negative one undoes a positive one |
| Calendar.DayInMonth | backend/app/integrations/ibm_usage_reports.py:42-47 | By day numbers with leap years, a day lies between the starts of its own month and the next one and of no other month |
| Calendar.BoundsTile | backend/app/integrations/ibm_usage_reports.py:42-47 | Month bounds meet the next month without gap or overlap, and a day lies within them exactly when it is of the month |
| Calendar.MonthComputationsAgree | backend/app/integrations/azure_cost_management.py:155-160 | Azure's month end, the month bounds and the budget window agree, and fail for the same last month only |
| Calendar.WindowIsTheMonth | backend/app/services/alert_evaluation_service.py:476-486 | A date falls into the budget window if and only if it is of the current month |
| Calendar.LastBillingMonths | backend/app/integrations/ibm_usage_reports.py:50-63 | The loop lists exactly the closed months before today, oldest first, across year ends |
| Calendar.PeriodsAgree | backend/app/integrations/aws_cost_explorer.py:108-109 | A month starts inside the requested period if and only if it is one of the listed ones |
| Calendar.TextRoundTripIff | backend/app/integrations/ibm_usage_reports.py:42-62 | For every year a date can have, the text of a month parses back to it if and only if the year has four digits |
| Calendar.PeriodBoundsIff | backend/app/integrations/ibm_usage_reports.py:42-47 | The text of a month yields day bounds if and only if its year has four digits and it is not the last month of all; they are the bounds of that month |
| Calendar.ListedMonthsMissTheWindow | backend/app/integrations/ibm_usage_reports.py:50-63 | No day of a listed month falls into the budget window if and only if the budget month is not itself listed |
| CostFetchers.TotalsByProduct | backend/app/integrations/digitalocean_billing.py:109-115 | Each product with real spending appears once with what was spent on it, and together they are everything spent |
| CostFetchers.FetchInvoices | backend/app/integrations/digitalocean_billing.py:89-128 | The newest invoices contribute one entry for each product with real spending, dated with their month; an unreadable or refused one ends the fetch |
| CostFetchers.InvoicesDistinctIff | backend/app/integrations/digitalocean_billing.py:109-126 | The entries of fetched invoices have different keys if and only if no two invoices of one month share a product |
| CostFetchers.Fetch | backend/app/integrations/ibm_usage_reports.py:87-116 | The loops over months and resources collect the specified entries, and nothing after an error |
| CostFetchers.FetchedDistinctIff | backend/app/integrations/ibm_usage_reports.py:102-114 | Fetched entries have different keys if and only if no monthly report charges two resources under one name |
| CostFetchers.FetchedIff | backend/app/integrations/ibm_usage_reports.py:87-116 | A successful fetch holds exactly the positive charges of the closed months' reports, dated with the bounds of their month |
| CostFetchers.ColumnIndex | backend/app/integrations/azure_cost_management.py:65-70 | The first column with the name, ignoring case, or nothing when there is none |
| CostFetchers.BillingMonthUsedIff | backend/app/integrations/azure_cost_management.py:139-147 | An answer with a billing month is dated by it if and only if that is not its first column, and rejected if it is and there is no usage date |
| CostFetchers.DateColumn | backend/app/integrations/azure_cost_management.py:136-147 | The first billing-month column dates the answer unless there is none or one stands first; then the first usage-date column does; the answer is rejected exactly when that is missing too |
| CostSync.CostTable.GetExisting | backend/app/repositories/cloud_cost_repository.py:56-69 | Finds a row with the key if and only if there is one |
| CostSync.CostTable.Sync | backend/app/services/cloud_cost_service.py:130-150 | The insert loop leaves existing rows untouched and appends a row exactly for each entry that is the first of its service and month and not stored yet for the project and provider |
| CostSync.KeysAfter | backend/app/services/cloud_cost_service.py:133-148 | Afterwards the known keys are exactly the old and the fetched ones |
| CostSync.CreatedKeysAreNew | backend/app/repositories/cloud_cost_repository.py:56-69 | Created rows have distinct keys that no older row has |
| CostSync.CreatedIff | backend/app/services/cloud_cost_service.py:133-148 | A row is created if and only if its entry is the first of its service and month in the fetch and the project has none of the provider for them |
| CostSync.SyncIsIdempotent | backend/app/services/cloud_cost_service.py:107-138 | A repeated synchronisation creates nothing, even if the amounts of known services and months have changed |
| CostSync.StoredIsFetchedIff | backend/app/services/cloud_cost_service.py:133-148 | The amount stored never exceeds the amount fetched, and equals it if and only if all fetched keys are distinct and new |
| CostSync.ReportsStoredIff | backend/app/services/cloud_cost_service.py:130-150 | A first synchronisation with IBM stores everything it fetched if and only if no monthly report charges two resources under one name |
| CostSync.InvoicesStoredIff | backend/app/services/cloud_cost_service.py:130-150 | A first synchronisation with DigitalOcean stores everything it fetched if and only if no two invoices of one month share a product |
| CostSync.SecondChargeIsLost | backend/app/services/cloud_cost_service.py:134-138 | For any two positive charges under one name in one report, the second is not stored |
| CostSync.BudgetUnchangedIff | backend/app/services/alert_evaluation_service.py:480-488 | A synchronisation leaves a project's current spending as it was if and only if no created row starts in the current month; other projects are never affected |
| CostSync.ClosedMonthsLeaveBudgetIff | backend/app/services/cloud_cost_service.py:130-150 | Synchronising closed months leaves the current spending alone, whatever is stored and whatever the provider answers, if and only if the budget month is not among the months closed by the local date |
| CostSync.FirstHoursOfFebruary | backend/app/services/alert_evaluation_service.py:476-486 | In every year, with local date 1 February and UTC date 31 January, a synchronisation can raise the spending of the current budget month |
| Usernames.Generate | backend/app/services/auth_service.py:40-55 | The loop returns the first free candidate, a well-formed name of 3 to 50 allowed characters, within one check more than there are users when the suffix has room |
| Usernames.BaseOf | backend/app/services/auth_service.py:46-48 | The base is what is left of the text before the first at sign, after "user" when shorter than 3, cut to 50 characters |
| Usernames.CleanedJoins | backend/app/services/auth_service.py:28-46 | Cleaning keeps each allowed character in place and drops every other |
| Usernames.CandidateReads | backend/app/services/auth_service.py:50-54 | A later candidate is the base followed by its number, read back as that number, or cut to 50 characters |
| Usernames.EndsWithinUsers | backend/app/services/auth_service.py:50-55 | With room for the digits, one of the first n + 1 candidates is free among n users |
| Usernames.LoopEndsIff | backend/app/services/auth_service.py:50-55 | The loop ends if and only if one of the first 10^w candidates is free, where w is the room left for the suffix |
| Usernames.FullBaseEndsIff | backend/app/services/auth_service.py:48-55 | For a base of 50 characters the loop ends if and only if the base itself is free |
| Tokens.Accounts.Register | backend/app/services/auth_service.py:60-113 | An unverified account with its verification token is added, under the chosen name or the first free one derived from the address, if and only if neither the address nor the chosen name is taken |
| Tokens.AccountsStayDistinct | backend/app/services/auth_service.py:60-113 | Over any run no two accounts share an address or a username |
| Tokens.Accounts.Request | backend/app/services/auth_service.py:175-222 | A new link replaces the stored token and its expiry for the account with the address; nothing else changes, and nothing at all for an unknown address or, for verification, a verified account |
| Tokens.Accounts.Redeem | backend/app/services/auth_service.py:161-240 | A link succeeds exactly when its hash is stored and not expired; it clears the token and verifies the account or stores the new password, and changes nothing else |
| Tokens.RedeemedIffLive | backend/app/services/auth_service.py:161-240 | Over any run, a token is accepted if and only if it is the latest of its kind given to its account, unused and in time |
| Tokens.AcceptedOnce | backend/app/services/auth_service.py:161-240 | Over any run, no token of a kind is accepted twice |
| Tokens.DeadStaysDead | backend/app/services/auth_service.py:175-222 | A used or replaced token never becomes valid again |
| Tokens.OnlyTheHolderChanges | backend/app/services/auth_service.py:224-240 | Over any run, redeeming a live token in time verifies its holder or sets the new password and changes nothing else; any other attempt changes nothing |

## Left out

- SDK, HTTP and database calls, retries and SQL are arbitrary inputs or outcomes; two jobs running at the same time are not modelled, since the code does not control that either.
- Routers, controllers, schemas, middleware, logging, schedulers, the frontend, the browser extension and the training and prediction of the machine-learning models.
- Message and description texts, except the alert type names that decide behaviour.
- Floating-point rounding inside sums and quotients, and the rounding to two decimals on storing a cost.
- The one-second resolution of stored timestamps: a step's times are the instants it used.
- Case-insensitive or trailing-space collation of the database: names and keys are compared exactly.
- Costs in mixed currencies are added up as the code adds them; the label is the first row's.
- Python's dictionary keeps insertion order; where a map is iterated the model carries that order (or the sorted keys) in a sequence beside it.
- Time zones: the local time of day in the do-not-disturb window and the local calendar date are inputs.
- Settings rows that are created on first use during a dispatch, with the extra commit this makes.
- An alert of a deleted user, deployment or project: rows and their owners are never deleted in the model.
- How latency, error rate, failed logins and cluster state are measured: their readings are inputs.
- Metrics collected for running instances during discovery; only their effect of crashing a pass half-way is modelled.
- The summary of an account's resources, which would add only counting.
- Hash functions are arbitrary one-way (injective) functions; JWT, sessions and encryption are not modelled, nor are logins and password changes, which touch no token.
- Schema validation of what users enter, and the profile fields of an account.
- Tokens.AcceptedOnce: assumes that no two issued tokens are equal, since they are 32 random bytes.
- Fetching costs from AWS and Azure answers beyond the period, the date column and the month end; GCP.
- Discovery.LastSeenNeverDecreases: assumes passes with non-decreasing times, because a pass stores the clock reading it was given and the code does not compare it with the stored one.
- CostSync.BudgetUnchangedIff: assumes positive amounts, which every fetcher guarantees by skipping the others.
- Conditions.CloudUsageIsHighestTier: assumes limits that are not negative, as `backend/app/schemas/deployment.py` demands; for a negative limit the single metrics would be skipped while the aggregate still divides by it.
- Autoscaler.AdviceMeans: assumes a CPU target within its band and 0 <= lower memory threshold < target < upper memory threshold, as the defaults have them; so do `Optimization.RecommendsIff` and `Optimization.RecommendedAnewIff`.
- Optimization.MemoryRateIff: assumes settings with 0 <= lower threshold < target < upper threshold, and a CPU target within its band.
