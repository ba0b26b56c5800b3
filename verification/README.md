# Verification of the progressive-delivery controllers

A Dafny model of the controllers that move a workload from one revision to the next, and
proofs of what they keep. Four parts, each built the same way: functions say what one
operation does, classes and loops in the form of the source are proved to do exactly that,
and lemmas prove what every run of the operations keeps.

- **Rolling updates of a Deployment.** `Common`, `ReplicaSets` (sums, filters, sort orders),
  `Strategy` (surge and unavailability), `Rolling` (one reconcile), `RollingRuns` (availability
  floor, surge ceiling, termination over runs), `RollingCases` (which pods go, and whose),
  `Proportional` and `ScalingCases` (scaling in the middle of a rollout), `History` (pruning),
  `RevisionText`, `Revisions` and `RevisionCases` (revision numbers as text and over runs), `Progress`,
  `ProgressRuns` and `ProgressCases` (the progress deadline), `Floats` (why the
  double-precision formulas equal the integer ones used here).
- **The progression executor.** `Progression` (one reconcile of a Rollout against an API server
  that rejects stale copies and a router of several VirtualServices), `Executor` (the same as
  methods), `Transitions` (each reconcile is at most one transition), `ProgressionRuns` (weights,
  steps, pauses, aborts over runs), `ExecutorCases` (what one reconcile stores, step by step),
  `Completion` (rollouts and aborts come to an end), `ManualPromotion` (waiting for the user),
  `ProgressionLimits` (which pauses last, which reconciles keep router and status in agreement,
  and two surprises reached from a new Rollout),
  `Splitting` (canary and stable sizes).
- **The AnalysisRun reconciler.** `Analysis` and `AnalysisRuns` (counters, verdicts and schedule
  over an append-only history), `Readings` (from a reading to a measurement and a verdict),
  `Gate` (composed with the executor).
- **The Istio provider.** `Istio` and `RouterWrites` (rewriting and verifying route weights).

The modules named after cases or readings, `ManualPromotion` and `RouterWrites` tell what one
operation does by the fields it reads and writes, and not by the functions of the model.

Reading the model:

- The API server accepts a number of writes per reconcile, its *budget*, and refuses the next
  one. Every caller stops at a refusal, so the budget says where a reconcile is cut short. A
  conflict with another client is a refused write followed by that client's edit.
- Clock readings, observed pods, query results, expression results, template lookups and the
  outcome of ReplicaSet and Service writes made by step handlers are arbitrary inputs of each
  event. Clock readings are in nanoseconds; stored times are cut to whole seconds.
- A reconcile may read an object older than the stored one; what it then sends is rejected.
- Percentages are resolved by exact integer floor or ceiling.
- A "run" is any finite list of events, so a statement about the end of every run is a
  statement about every reachable state.

Where the code does not keep what one might expect, the exact condition is proved and a concrete
input shows that it can fail:

- the sizes of a proportional pass add up unless the leftover overshoots
  (`ProportionalScalingConserves`, `ScalingDownCanOvershoot`), and with fresh annotations by no
  more than half a pod for each ReplicaSet (`FreshOvershootIsSmall`);
- a reconcile keeps the availability floor unless it gets to the old ReplicaSets while the new
  one, at a size below the floor, reports more available pods than that size, and the reported
  pods lie above the floor with an old one among them (`FloorBreaksIff`, `ThriftyRunKeepsFloor`,
  for sound status of the old ReplicaSets; `FloorNeedsSoundStatus` is an input). Where old
  ReplicaSets report a surplus too, the answer depends on the order in which they are scaled
  down; what is proved there is a bound, the floor less the surplus (`RunKeepsFloor`);
- the revision order is an order unless an unreadable revision is in conflict
  (`TransitiveIffSortable`, `RevisionOrderNeedsParsableRevisions`);
- a cleanup keeps the greatest revision unless it is to keep nothing and does not know the new
  ReplicaSet (`CleanupLosesTopIff`, `ZeroLimitReusesRevisions`);
- a pause lasts unless it is entered with an old pause condition, as a second pass can enter its
  first step (`PauseLastsIff`, `SecondPassSkipsThePause`);
- an abort keeps router and status in agreement only at zero (`FreshAgreesIff`,
  `AbortAgreesIff`, `ResumeLeavesRouterBehind`), and a reconcile of an out-of-date object only
  when its target agrees or it does not get as far as the router (`CachedAgreesIff`).

The comment on the reason AwaitingPromotion (pkg/apis/rollouts/v1alpha1/types_rollout.go:818-821)
says that every progression that ends in a Promote under the Manual mode passes through it. The
code accepts a promotion as soon as there is no pause condition and the phase is not Paused, which
is how advanceStep and the start of the first step leave the status: a rollout that arrives in the
ordinary way is promoted by reconciles alone (`ManualPromotesByItself`), and it waits exactly when
a pause condition is left or the phase is Paused (`ManualPromotionDecides`).

The comment on the executor's analysis run name says that runs converge per revision; the code
never stamps the pod hash of a rollout that has steps, so a later pass finds the old run
(`LaterPassReusesTheRun`) and measures nothing (`SecondPassMeasuresNothing`).

`dafny verify dfyconfig.toml` checks everything.

## Model

| member | source | states |
|---|---|---|
| RollingRuns.RunKeepsFloor | pkg/controller/rollout/_forkedfrom_k8s/rolling.go:68-235 | Over every interleaving of reconciles (each cut short at any write), pod events, roll-overs, new templates and pruning, whatever status reports, the sum of min(available, spec) stays at the smaller of its first value and replicas - maxUnavailable less the worst surplus (available pods reported beyond the sizes) a reconcile starts from, less only the pods that failed by themselves |
| RollingRuns.SoundRunKeepsFloor | pkg/controller/rollout/_forkedfrom_k8s/rolling.go:68-235 | When every reconcile starts from status without surplus, the floor replicas - maxUnavailable itself holds over the run |
| RollingRuns.ThriftyRunKeepsFloor | pkg/controller/rollout/_forkedfrom_k8s/rolling.go:68-235 | The same over every run in which no reconcile starts with unsound status of the old ReplicaSets or where it would overspend (the exact condition of FloorBreaksIff), whatever surplus the new ReplicaSet reports and whichever writes are refused |
| RollingRuns.RunKeepsMaxUnavailable | pkg/controller/rollout/_forkedfrom_k8s/rolling.go:68-235 | maxUnavailable in the terms of the user: over a run whose reconciles do not overspend, not counting pods that failed by themselves, no more pods are missing than at the start, or than the count or the percentage of the size allows, save for one pod when that and the surge both come to nothing |
| RollingRuns.RunKeepsCeiling | pkg/controller/rollout/_forkedfrom_k8s/rolling.go:68-152 | Over every such run the total size never exceeds the larger of its first value and replicas + maxSurge |
| RollingRuns.RunKeepsMaxSurge | pkg/controller/rollout/_forkedfrom_k8s/rolling.go:68-152 | maxSurge in the terms of the user: over every such run the pods beyond the desired size are no more than at the start, or than the count, or than the percentage of the size rounded up |
| RollingRuns.RollingUpdateFinishes | pkg/controller/rollout/_forkedfrom_k8s/rolling.go:31-152 | With the new pods becoming available between reconciles, after as many rounds as the first distance the new ReplicaSet has the desired size and no old pod is left |
| RollingRuns.ReconcileComesCloser | pkg/controller/rollout/_forkedfrom_k8s/rolling.go:31-152 | Each such reconcile strictly lowers the distance (size difference of the new ReplicaSet plus all old sizes) unless it is already finished; there is no stuck state, and a finished rollout stays finished |
| RollingRuns.ReconcileKeepsFloor | pkg/controller/rollout/_forkedfrom_k8s/rolling.go:86-235 | One reconcile, whichever write is refused and whatever status reports, keeps the healthy pods at where they were or at the floor less the surplus; from sound status the surplus is zero |
| RollingRuns.FloorBreaksIff | pkg/controller/rollout/_forkedfrom_k8s/rolling.go:31-152 | From sound status of the old ReplicaSets and with no refused write, a reconcile takes the healthy pods below the floor (and below where they were) if and only if the new ReplicaSet stays at its size, reports more available pods than that, its size is below the floor, and the reported pods, an old one among them, lie above it |
| RollingRuns.ThriftKeepsFloor | pkg/controller/rollout/_forkedfrom_k8s/rolling.go:31-152 | Where that condition does not hold, one reconcile keeps the floor wherever it is cut short |
| RollingRuns.ReconcileKeepsCeiling | pkg/controller/rollout/_forkedfrom_k8s/rolling.go:68-152 | One reconcile keeps the surge ceiling, never scales the new ReplicaSet above the desired size and never writes a negative size |
| RollingRuns.CleanupKeepsHealthy | pkg/controller/rollout/_forkedfrom_k8s/rolling.go:155-189 | Whatever status reports, cleaning up never changes the number of healthy pods and never raises a size |
| RollingRuns.CleanupBounds | pkg/controller/rollout/_forkedfrom_k8s/rolling.go:155-189 | Cleaning up unhealthy pods costs no available pod, removes exactly what it reports, stays within its limit, and does nothing only when there is nothing unhealthy |
| RollingRuns.ScaleDownBounds | pkg/controller/rollout/_forkedfrom_k8s/rolling.go:193-235 | Scaling down costs at most one healthy pod per pod counted, removes exactly what it reports, and stays within the quota |
| RollingRuns.ReconcileOldCost | pkg/controller/rollout/_forkedfrom_k8s/rolling.go:86-235 | With no refused write the old ReplicaSets lose exactly the smaller of their available pods and the available pods above the floor, whatever unhealthy pods are cleaned up first |
| RollingRuns.FloorNeedsSoundStatus | pkg/controller/rollout/_forkedfrom_k8s/rolling.go:86-152 | A concrete fleet whose new ReplicaSet reports a surplus of 3: one reconcile takes the healthy pods below the floor, by exactly that surplus |
| RollingCases.NewGoesFirst | pkg/controller/rollout/_forkedfrom_k8s/rolling.go:31-84 | While the new ReplicaSet is not at the size it is to have (the desired one, or what the surge leaves room for), bringing it there, with both annotations, is the only write; old ones are written only then, and only shrink |
| RollingCases.FullNeedsNoSurge | pkg/controller/rollout/_forkedfrom_k8s/rolling.go:68-77 | At or above the desired size the new ReplicaSet gets that size whatever the strategy says, without an error |
| RollingCases.OldPodsThatGo | pkg/controller/rollout/_forkedfrom_k8s/rolling.go:86-235 | From sound status and with no refused write, exactly how many old pods go: the unhealthy ones up to everything above the floor that the missing new pods do not use up, and then the available ones above the floor |
| RollingCases.SurplusEndsTheReconcile | pkg/controller/rollout/_forkedfrom_k8s/rolling.go:155-189 | An oldest ReplicaSet that reports more available pods than its size ends the pass before any write |
| RollingCases.OldestGoFirst | pkg/controller/rollout/_forkedfrom_k8s/rolling.go:155-235 | Whichever write is refused, an old ReplicaSet loses an unhealthy pod only when no older one has any left, and an available pod only when all older ones are empty |
| Rolling.ReconcileReplays | pkg/controller/rollout/_forkedfrom_k8s/rolling.go:31-152 | The writes accepted in one reconcile, replayed on the stored ReplicaSets, give exactly the resulting fleet: nothing else is touched, created or lost |
| Rolling.DeploymentController.RolloutRolling | pkg/controller/rollout/_forkedfrom_k8s/rolling.go:38-55 | The scale-up and scale-down of a reconcile write what the specification function says, for every point at which a write is refused, and report an error exactly when the new size is unknown or its write is refused |
| Rolling.DeploymentController.ReconcileNewReplicaSet | pkg/controller/rollout/_forkedfrom_k8s/rolling.go:68-84 | The size written for the new ReplicaSet, or the error |
| Rolling.DeploymentController.ReconcileOldReplicaSets | pkg/controller/rollout/_forkedfrom_k8s/rolling.go:86-152 | Cleanup, then scale-down, with refused writes swallowed and the later pass skipped |
| Rolling.DeploymentController.CleanupUnhealthyReplicas | pkg/controller/rollout/_forkedfrom_k8s/rolling.go:155-189 | The loop updates the sorted slice in place and leaves list, running total and server log as the pass specifies |
| Rolling.DeploymentController.ScaleDownOldReplicaSetsForRollingUpdate | pkg/controller/rollout/_forkedfrom_k8s/rolling.go:193-235 | The same for the scale-down loop |
| Rolling.DeploymentController.ScaleReplicaSet | pkg/controller/rollout/_forkedfrom_k8s/sync.go:413-433 | A write happens when size or annotations differ; it carries the desired and maximal size annotations |
| Rolling.DeploymentController.ScaleReplicaSetAndRecordEvent | pkg/controller/rollout/_forkedfrom_k8s/sync.go:398-411 | No write at all when the size already matches |
| Strategy.ResolveFenceposts | pkg/controller/rollout/_forkedfrom_k8s/util/deployment_util.go:851-870 | The two fenceposts never resolve to 0 together; what they resolve to is in FencepostsRound |
| Strategy.FencepostsRound | pkg/controller/rollout/_forkedfrom_k8s/util/deployment_util.go:851-870 | maxSurge is the count, or the percentage of the size rounded up; maxUnavailable is the count, or the percentage rounded down, at most the size, and 1 when both come to 0 |
| Strategy.FencepostsDefault | pkg/controller/rollout/_forkedfrom_k8s/util/deployment_util.go:437-465 | Missing values are counts of nothing, which leaves one pod unavailable; unreadable ones and other strategies give no surge and no unavailable pod |
| Strategy.FencepostsLeaveSlack | pkg/controller/rollout/_forkedfrom_k8s/util/deployment_util.go:437-465 | 0 <= maxUnavailable <= replicas, maxSurge >= 0, and a non-empty Deployment has slack of at least one pod |
| Strategy.GrowthIsBounded | pkg/controller/rollout/_forkedfrom_k8s/util/deployment_util.go:784-809 | The new size never exceeds the desired size or takes the total over the ceiling, and stays the same exactly when the ReplicaSet is full or the ceiling is reached |
| Strategy.GrowthUnderOthers | pkg/controller/rollout/_forkedfrom_k8s/util/deployment_util.go:784-809 | Recreate wants the whole size at once; another strategy, or a surge that is missing or unreadable, is an error |
| Proportional.ProportionalScalingConserves | pkg/controller/rollout/_forkedfrom_k8s/sync.go:324-394 | The sizes written are never negative and sum to the allowed size plus the overshoot; the sum is exact if and only if the pass does not scale down by a leftover larger than the first estimate |
| Proportional.SpreadReachesAllowedSize | pkg/controller/rollout/_forkedfrom_k8s/sync.go:356-394 | When no write is refused the stored sizes are those, for any active ReplicaSets with positive annotations and products that fit 32 bits |
| Proportional.RunningTotalStaysInside | pkg/controller/rollout/_forkedfrom_k8s/util/deployment_util.go:470-488 | The running total never passes the number of pods to add or remove, whatever the annotations; with positive ones no estimate is negative |
| Proportional.ScalingToZeroEmptiesAll | pkg/controller/rollout/_forkedfrom_k8s/util/deployment_util.go:492-512 | replicas = 0 gives every ReplicaSet the size 0 |
| Proportional.ScalingDownCanOvershoot | pkg/controller/rollout/_forkedfrom_k8s/sync.go:362-394 | A concrete case with fresh annotations: four ReplicaSets of one pod scaled to two pods keep three |
| Proportional.FreshOvershootIsSmall | pkg/controller/rollout/_forkedfrom_k8s/sync.go:324-394 | When every annotation is the present total, the leftover is at most half a pod for each ReplicaSet in either direction, and so is the overshoot |
| Proportional.WriteSizesGivesSizes | pkg/controller/rollout/_forkedfrom_k8s/sync.go:371-394 | A refused write leaves a prefix resized and the rest as it was |
| Proportional.EstimateSizes | pkg/controller/rollout/_forkedfrom_k8s/sync.go:343-369 | The first loop fills the size map and the running total |
| Proportional.SpreadReplicas | pkg/controller/rollout/_forkedfrom_k8s/sync.go:324-394 | Both loops: estimate, leftover to the first, clamp at zero, write in order, stop at the first refusal |
| Proportional.ScaleDeployment | pkg/controller/rollout/_forkedfrom_k8s/sync.go:299-396 | The three cases of scale: the only active ReplicaSet, a saturated rollout, the proportional pass |
| Proportional.FindActiveOrLatest | pkg/controller/rollout/_forkedfrom_k8s/util/deployment_util.go:357-377 | The only active ReplicaSet, or the newest when none is active; sorts the old ones in place |
| ScalingCases.OnlyActiveGetsTheSize | pkg/controller/rollout/_forkedfrom_k8s/sync.go:299-307 | With exactly one active ReplicaSet the only write gives it the desired size; no other is written |
| ScalingCases.NewestGetsTheSize | pkg/controller/rollout/_forkedfrom_k8s/util/deployment_util.go:357-377 | With none active it is the new ReplicaSet, or else the one created last |
| ScalingCases.NothingToScale | pkg/controller/rollout/_forkedfrom_k8s/util/deployment_util.go:357-360 | Without any ReplicaSet nothing is written |
| ScalingCases.FullEmptiesTheOld | pkg/controller/rollout/_forkedfrom_k8s/sync.go:309-319 | Beside a new ReplicaSet whose size, desired annotation and available pods all equal the desired size, every active old one goes to 0 and nothing else is written, up to a refused write |
| ScalingCases.SpreadBringsTheSize | pkg/controller/rollout/_forkedfrom_k8s/sync.go:321-394 | Beside one that lacks any of the three, only active ReplicaSets are written, none below 0, and the sizes come to what is allowed: exactly when pods are added, within half a pod for each when they are removed under fresh annotations; when the total is what is allowed no size changes |
| ScalingCases.ScalesAllThatNeedIt | pkg/controller/rollout/_forkedfrom_k8s/sync.go:371-433 | Each ReplicaSet of the pass is written unless it has its size and both annotations already; a pass that is not refused leaves all of them so, and nothing else of them changed |
| ScalingCases.LargestComesFirst | pkg/controller/rollout/_forkedfrom_k8s/sync.go:338-351 | The leftover goes to the largest; among equals to the one created last when pods are added, and to the one created first when pods are removed |
| ScalingCases.ProportionIsClosest | pkg/controller/rollout/_forkedfrom_k8s/util/deployment_util.go:470-512 | The share of a ReplicaSet is its fraction of what is allowed now, by the annotation it was last scaled under or the size in status, rounded to the closest integer, a half up, and cut at what is still to be added or removed |
| ScalingCases.QuotientSigns | pkg/controller/rollout/_forkedfrom_k8s/util/deployment_util.go:492-512 | The quotient under any annotation: closest integer, a half away from zero, by sign; an annotation of zero gives what the platform converts an infinity or no number to |
| ScalingCases.OthersDoNotSpread | pkg/controller/rollout/_forkedfrom_k8s/sync.go:321-326 | Under a strategy other than RollingUpdate nothing is written then |
| Floats.RoundedQuotientIsExact | pkg/controller/rollout/_forkedfrom_k8s/util/deployment_util.go:509-511 | For every 32-bit numerator and denominator but zero the rounded double-precision quotient is the nearest integer, halves away from zero |
| ReplicaSets.TransitiveIffSortable | pkg/controller/rollout/_forkedfrom_k8s/util/deployment_util.go:928-935 | Each comparator is transitive over distinct names, the revision order if and only if no unreadable revision stands in conflict with two readable ones (their numbers run against the ages around it) |
| ReplicaSets.OrdersMean | pkg/internal/k8scontroller/controller_utils.go:92-126 | What each order puts first, told by creation time and name, size, and readable revision |
| ReplicaSets.LessDecides | pkg/internal/k8scontroller/controller_utils.go:92-126 | Each comparator, reversed and by revision included, decides between two distinct names and never both ways, unreadable revisions included |
| ReplicaSets.RevisionOrderNeedsParsableRevisions | pkg/controller/rollout/_forkedfrom_k8s/util/deployment_util.go:928-935 | Such a conflict exists: three concrete ReplicaSets ordered in a circle |
| ReplicaSets.SortedIsUnique | pkg/internal/k8scontroller/controller_utils.go:92-126 | Any sorted arrangement of the same ReplicaSets is the one used here, so no result depends on the sorting algorithm |
| ReplicaSets.SortOrders | pkg/internal/k8scontroller/controller_utils.go:92-126 | Over distinct names the result is strictly increasing if and only if the list has no conflict; with one no arrangement is |
| ReplicaSets.SortPermutes | pkg/internal/k8scontroller/controller_utils.go:92-126 | Sorting neither loses nor adds a ReplicaSet |
| ReplicaSets.FilterActiveReplicaSets | pkg/internal/k8scontroller/controller_utils.go:73-90 | Keeps, in order, exactly the ReplicaSets with a positive size |
| ReplicaSets.CountPods | pkg/controller/rollout/_forkedfrom_k8s/util/deployment_util.go:658-699 | The counting loops compute the sum |
| History.CleanupDeletesExactly | pkg/controller/rollout/_forkedfrom_k8s/sync.go:438-473 | Cleanup deletes a ReplicaSet only if it is live, drained, and at least limit live ones are newer; when nothing is refused it deletes all of those |
| History.CleanupDeletesOldDrained | pkg/controller/rollout/_forkedfrom_k8s/sync.go:438-473 | The same told by the fields: no pods, none wanted, the latest size seen, not being deleted, and as many live newer ones as the limit; a refused deletion comes after all that were granted |
| History.CleanupKeepsAll | pkg/controller/rollout/_forkedfrom_k8s/sync.go:439-441 | Without a limit, or with the largest 32-bit integer, nothing is deleted |
| History.SecondCleanupDeletesNothing | pkg/controller/rollout/_forkedfrom_k8s/sync.go:438-473 | After a complete pass a second one deletes nothing |
| History.DrainedHistoryShrinksToLimit | pkg/controller/rollout/_forkedfrom_k8s/sync.go:438-473 | Once all are drained exactly min(n, limit) live ones remain |
| History.CleanupDeployment | pkg/controller/rollout/_forkedfrom_k8s/sync.go:438-473 | The loop deletes what the specification says and stops at the first refusal |
| Revisions.NumbersAreNeverReused | pkg/controller/rollout/_forkedfrom_k8s/sync.go:138-182 | Over any run of template changes, rollbacks, refused writes, cleanups and pod changes, names and revisions stay distinct, histories stay increasing and below the current revision, and every number assigned exceeds all earlier ones |
| Revisions.SyncMakesNewest | pkg/controller/rollout/_forkedfrom_k8s/sync.go:138-182 | A sync leaves the new ReplicaSet with the strictly greatest revision; a number it writes is one above all in use and nothing else changes |
| RevisionCases.SyncCases | pkg/controller/rollout/_forkedfrom_k8s/sync.go:138-219 | What one sync does to revisions, told by numbers: a revision that cannot be read or is above all others stays; a smaller one becomes one more than the greatest readable other and goes into the history if it was written; without a ReplicaSet for the template one is created with that number, or nothing happens |
| Revisions.CleanupLosesTopIff | pkg/controller/rollout/_forkedfrom_k8s/sync.go:438-473 | A complete cleanup deletes the ReplicaSet with the greatest revision if and only if it is not the new one, is drained, and the limit is 0 |
| Revisions.CleanupKeepsTop | pkg/controller/rollout/_forkedfrom_k8s/sync.go:438-473 | A cleanup that knows the new ReplicaSet or keeps at least one never lowers the greatest revision, even cut short |
| Revisions.ZeroLimitReusesRevisions | pkg/controller/rollout/_forkedfrom_k8s/sync.go:49-69 | A paused Deployment with limit 0 and no ReplicaSet for its template: revision 1 is assigned a second time |
| Revisions.StampedIsRenumbered | pkg/controller/rollout/_forkedfrom_k8s/util/deployment_util.go:232-293 | Editing the annotation text gives the text of the renumbered ReplicaSet: revision, and history with the old revision appended |
| Revisions.ExtendedIncreases | pkg/controller/rollout/_forkedfrom_k8s/util/deployment_util.go:261-286 | The extended history is strictly increasing and below the new revision |
| Revisions.FindMaxRevision | pkg/controller/rollout/_forkedfrom_k8s/util/deployment_util.go:187-198 | The loop finds the greatest readable revision, never below 0 |
| Revisions.RevisionKeeper.FindNewReplicaSet | pkg/controller/rollout/_forkedfrom_k8s/util/deployment_util.go:613-626 | The oldest ReplicaSet with the wanted template |
| Revisions.FindNewIsOldest | pkg/controller/rollout/_forkedfrom_k8s/util/deployment_util.go:613-626 | No other ReplicaSet with the template was created before the one found |
| Revisions.RevisionKeeper.GetNewReplicaSet | pkg/controller/rollout/_forkedfrom_k8s/sync.go:138-292 | Renumbers the existing new ReplicaSet unless its revision is large enough or unreadable, creates one with the next revision, or does nothing; a refused write changes nothing |
| RevisionText.FirstFit | pkg/controller/rollout/_forkedfrom_k8s/util/deployment_util.go:271-284 | The start of the longest suffix of the history that fits the limit with the new entry appended |
| RevisionText.TrimHistory | pkg/controller/rollout/_forkedfrom_k8s/util/deployment_util.go:271-277 | The loop over the running length finds that start |
| RevisionText.AnnotatedReplicaSet.SetRevision | pkg/controller/rollout/_forkedfrom_k8s/util/deployment_util.go:232-293 | The annotation map afterwards, and whether the revision changed; unreadable revisions change nothing |
| RevisionCases.AnnotationCases | pkg/controller/rollout/_forkedfrom_k8s/util/deployment_util.go:232-293 | When the annotation changes and what then stands under the two keys; all other keys stay |
| RevisionCases.HistoryIsTrimmed | pkg/controller/rollout/_forkedfrom_k8s/util/deployment_util.go:264-284 | The history takes the superseded revision at its end and drops as few of its oldest entries as the limit asks for; where the new entry alone does not fit, it stays |
| RevisionText.ParseFormatRoundTrip | pkg/controller/rollout/_forkedfrom_k8s/util/deployment_util.go:218-228 | A formatted 64-bit revision parses back to itself |
| RevisionCases.ParseReads | pkg/controller/rollout/_forkedfrom_k8s/util/deployment_util.go:218-228 | Digits with an optional sign parse to their number when it fits 64 bits, and otherwise are an error |
| RevisionCases.OnlyNumbersParse | pkg/controller/rollout/_forkedfrom_k8s/util/deployment_util.go:218-228 | Any other text is an error |
| RevisionText.SplitOfJoin | pkg/controller/rollout/_forkedfrom_k8s/util/deployment_util.go:264-281 | Splitting a joined history gives its entries back |
| RevisionText.JoinOfSplit | pkg/controller/rollout/_forkedfrom_k8s/util/deployment_util.go:264-281 | Joining the parts of any history gives the text back |
| ProgressRuns.TimeoutHasCause | pkg/controller/rollout/_forkedfrom_k8s/progress.go:36-118 | In any run, ProgressDeadlineExceeded is newly set only by a sync that saw no progress, after the deadline has passed since LastUpdateTime, with no progress or completion seen after that time |
| ProgressRuns.TimeoutPersistsOverRun | pkg/controller/rollout/_forkedfrom_k8s/util/deployment_util.go:738-778 | It stays set through any run without progress, completion, ReplicaSet creation or loss of the deadline |
| ProgressRuns.TimeoutPersists | pkg/controller/rollout/_forkedfrom_k8s/sync.go:74-103 | Single-event form, pausing and resuming included |
| ProgressRuns.RunKeepsRecent | pkg/controller/rollout/_forkedfrom_k8s/progress.go:36-118 | The Progressing condition is never older than the last sign of progress while the rollout is under way |
| ProgressRuns.RunKeepsOnePerKind | pkg/controller/rollout/_forkedfrom_k8s/util/deployment_util.go:116-156 | There is never more than one condition per type |
| ProgressRuns.TransitionTimeMovesWithStatus | pkg/controller/rollout/_forkedfrom_k8s/util/deployment_util.go:128-139 | Over every event and for each type of condition, LastTransitionTime is kept whenever the status is unchanged |
| ProgressRuns.GetSet | pkg/controller/rollout/_forkedfrom_k8s/util/deployment_util.go:128-139 | Setting a condition touches its own type only, keeps an equal one, and keeps the transition time when the status is the same |
| ProgressRuns.RolloutProgressing | pkg/controller/rollout/_forkedfrom_k8s/progress.go:36-96 | What one sync does to the Progressing condition, case by case |
| ProgressCases.SyncReports | pkg/controller/rollout/_forkedfrom_k8s/progress.go:36-96 | What one sync does to the Progressing condition, told by counts, times and reasons: none without a deadline; complete when every pod is an updated, available one; progressing with more updated, ready or available pods or fewer old ones; timed out once the deadline has passed since the last update; otherwise unchanged; with its times |
| ProgressCases.SyncCounts | pkg/controller/rollout/_forkedfrom_k8s/sync.go:490-526 | Counts, unavailable pods and generation as observed; Available is true exactly when the available pods reach the desired size less maxUnavailable |
| ProgressCases.SyncReportsFailure | pkg/controller/rollout/_forkedfrom_k8s/progress.go:98-118 | The failure of a ReplicaSet is passed on with its status and reason, and taken back when there is none |
| ProgressCases.PauseIsRecorded | pkg/controller/rollout/_forkedfrom_k8s/sync.go:74-103 | Pausing and resuming is recorded as an unknown progress, once, unless the rollout timed out or has no deadline; no other condition is touched |
| ProgressRuns.OtherKinds | pkg/controller/rollout/_forkedfrom_k8s/progress.go:36-118 | The Available condition changes only in a sync of the status, the ReplicaFailure condition only in syncRolloutStatus, and either keeps its transition time with its status |
| Progress.StatusKeeper.SyncRolloutStatus | pkg/controller/rollout/_forkedfrom_k8s/progress.go:36-118 | The status written, or no write when nothing changed |
| Progress.StatusKeeper.EstimateProgress | pkg/controller/rollout/_forkedfrom_k8s/progress.go:41-96 | The edits of the Progressing condition |
| Progress.StatusKeeper.CalculateStatus | pkg/controller/rollout/_forkedfrom_k8s/sync.go:490-526 | The counts, the unavailable pods, the kept collision count and the Available condition |
| Progress.StatusKeeper.CheckPausedConditions | pkg/controller/rollout/_forkedfrom_k8s/sync.go:74-103 | Paused and resumed conditions, never over a timeout, and an error exactly when a needed write is refused |
| Progress.SetCondition | pkg/controller/rollout/_forkedfrom_k8s/util/deployment_util.go:128-139 | SetDeploymentCondition |
| Progress.FilterOutCondition | pkg/controller/rollout/_forkedfrom_k8s/util/deployment_util.go:147-156 | The loop keeps exactly the conditions of other types, in order |
| Splitting.SplittingConverges | pkg/controller/rollout/scaling.go:34-64 | Repeating reconcileReplicas settles after max(1, k) rounds, k being the old ReplicaSets above the stable target, and not a round earlier when k > 1 |
| Splitting.FixpointIsSettled | pkg/controller/rollout/scaling.go:34-64 | A fixpoint is exactly: canary at its target, largest old one at the stable target, none above |
| Splitting.CanaryIsTheShareRoundedUp | pkg/controller/rollout/scaling.go:95-117 | canary - desired*weight/100 lies in [0,1), and a positive weight has a canary pod |
| Splitting.SplitConserves | pkg/controller/rollout/scaling.go:95-117 | canary + stable = desired for every weight and strategy |
| Splitting.SplitCases | pkg/controller/rollout/scaling.go:96-119 | An empty Deployment has no pods on either side, a canary that keeps its size keeps it up to the whole, and a weight of 0 or 100 leaves one side empty |
| Splitting.OneMorePodGoesToOneSide | pkg/controller/rollout/scaling.go:95-117 | Raising desired by one adds one pod to one side and removes none |
| Splitting.PercentOfMatchesSplit | pkg/controller/rollout/steps.go:122-140 | percentOf asks for the canary the split gives, for every weight |
| Splitting.PercentOfCases | pkg/controller/rollout/steps.go:122-143 | A percentage of the size rounded up, between nothing and the whole; a bare number is a percentage; only unreadable text is an error |
| Splitting.MatchTrafficWeightAgrees | pkg/controller/rollout/steps.go:145-163 | matchTrafficWeight reads the weight the status has if and only if the last weight came from a SetWeight, or none did and the pass began at 0, or a Promote did after a SetWeight of 100 |
| Splitting.MatchTrafficWeightKeepsTheSplit | pkg/controller/rollout/steps.go:92-116 | In every state of a run from weight 0 with no Promote after the last SetWeight the matched canary size is the one the split maintains |
| Splitting.FindLastSetWeight | pkg/controller/rollout/steps.go:145-163 | The two loops find the last SetWeight at or before the current step, or 0 |
| Splitting.LastSetWeightIsNearest | pkg/controller/rollout/steps.go:145-163 | It is the weight of the last SetWeight up to and with the current step, of all steps when the current one is unknown, and 0 when there is none |
| Splitting.CanarySizeCases | pkg/controller/rollout/steps.go:92-116 | What each form of a SetCanaryScale asks for |
| Splitting.LargestIsLargest | pkg/controller/rollout/scaling.go:144-161 | The first of the largest old ReplicaSets |
| Splitting.ReplicaScaler.LargestOldRS | pkg/controller/rollout/scaling.go:144-161 | The loop finds it |
| Splitting.ReplicaScaler.ReconcileReplicas | pkg/controller/rollout/scaling.go:34-76 | Nothing without a new ReplicaSet; otherwise both scale writes, in order, stopping at a refusal, and none for a size already there |
| Splitting.RoundWrites | pkg/controller/rollout/scaling.go:34-76 | The canary is written first, then the first of the largest old ReplicaSets, each only when its size differs and the second only when the first was not refused |
| Floats.CeilIsExact | pkg/controller/rollout/scaling.go:112-116 | The double-precision ceiling is the integer one for all 32-bit sizes |
| Transitions.SyncIsOneTransition | pkg/controller/rollout/controller.go:186-246 | Whatever writes a reconcile attempts and wherever it stops, the stored object makes at most one allowed transition: every second write from a stale copy is rejected |
| Transitions.SyncRoutes | pkg/controller/rollout/controller.go:186-246 | A reconcile writes at most its own target to the router, in order up to a failure, and before it stores a new weight or leaves a step with a target; an aborted one succeeds only with the router at zero |
| ExecutorCases.CountsAreStored | pkg/controller/rollout/controller.go:338-357 | New counts, a new size (one when none is given) or a new generation are stored before anything else, and nothing with them |
| ExecutorCases.PausedIsLeftAlone | pkg/controller/rollout/controller.go:186-215 | A paused Rollout is left alone; a router or ReplicaSets in error end the reconcile with one |
| ExecutorCases.FirstStepIsStarted | pkg/controller/rollout/controller.go:217-246 | With steps and none current, the first one is stored with its start in whole seconds and the phase Progressing |
| ExecutorCases.NoStepsFinalize | pkg/controller/rollout/progression.go:119-138 | A rollout without steps becomes Healthy once, without pause conditions, with the hash and the revision of the new ReplicaSet |
| ExecutorCases.UnknownStepFinalizes | pkg/controller/rollout/progression.go:47-93 | A current step that is not in the list is treated as no step at all |
| ExecutorCases.SetWeightStep | pkg/controller/rollout/steps.go:36-61 | Every VirtualService gets the weight; then the status gets it, and the next reconcile stores the next step |
| ExecutorCases.SetWeightTroubles | pkg/controller/rollout/steps.go:36-61 | Without a router, or when it fails partway or the check fails, the step is an error; a check that is not there yet is waited for; nothing is stored in any of these cases |
| ExecutorCases.PlainStep | pkg/controller/rollout/steps.go:68-87 | A scale or an experiment is passed once it succeeds; a step with no action is an error |
| ExecutorCases.PauseStep | pkg/controller/rollout/steps.go:167-203 | The first reconcile stores the start and the end in whole seconds; the step is left when the clock is a duration past the stored start, and never without a duration |
| ExecutorCases.AnalysisStep | pkg/controller/rollout/steps.go:209-237 | An unfinished run is waited for; a verdict is recorded once under the name of step and hash; then a good one is passed and a bad one follows the policy of the step; an inconclusive one follows that of the templates |
| ExecutorCases.PromoteStep | pkg/controller/rollout/steps.go:454-530 | The phase first, then the router and the weight, then, when the delay since the start of the step is over, the next step |
| ExecutorCases.PromoteRouterTrouble | pkg/controller/rollout/steps.go:482-500 | A router that fails partway in a promotion has all traffic on the canary up to there; the reconcile is an error and stores nothing |
| ExecutorCases.PromoteTroubles | pkg/controller/rollout/steps.go:532-586 | Services that cannot be repointed, or, once the delay is over, old ReplicaSets that cannot be scaled down, make the reconcile an error and keep the step |
| ExecutorCases.AbortStep | pkg/controller/rollout/controller.go:362-386 | An abort puts every VirtualService at 0 and stores the phase Aborted, once |
| ExecutorCases.AbortTroubles | pkg/controller/rollout/controller.go:362-386 | An abort whose router fails partway, or whose ReplicaSets cannot be scaled, is an error and stores nothing |
| ProgressionRuns.RunRefines | pkg/controller/rollout/steps.go:36-61 | In every state of every run status.currentWeight is the weight of the last SetWeight or Promote before the current step, or the target of the current step, or the weight its pass began with |
| ProgressionRuns.ApplyRefines | pkg/controller/rollout/progression.go:97-114 | One event, a reconcile of an out-of-date object included, keeps that, and a finished pass ends at the weight of its whole step list |
| ProgressionRuns.StepsAreNeverSkipped | pkg/controller/rollout/progression.go:79-114 | Over any event, a reconcile of an out-of-date object included, CurrentStep moves only to its successor, to empty after the last, or from empty to the first |
| ProgressionRuns.ResolveSurvivesEdits | pkg/controller/rollout/progression.go:79-93 | Inserting, removing or reordering other steps leaves the resolved step the same |
| ProgressionRuns.StepIsLeftOnlyWhenDone | pkg/controller/rollout/steps.go:36-526 | What must hold for each kind of step when it is left: router and status at the weight and verified, pause elapsed, analysis passed or ignored, promotion complete |
| ProgressionLimits.PauseLastsIff | pkg/controller/rollout/steps.go:167-203 | A duration pause lasts at least its duration over every run if and only if it is entered with no pause condition left over, or with one no older than the entry (times as stored, in whole seconds) |
| ProgressionRuns.PauseLasts | pkg/controller/rollout/steps.go:167-203 | Over any run, such a pause is still waiting while every clock reading is short of its end |
| ProgressionLimits.SecondPassSkipsThePause | pkg/controller/rollout/progression.go:97-114 | From a new Rollout whose only step is a one-hour pause: the first pass waits the hour in every run, the second is past the pause at the instant it starts |
| ProgressionRuns.CachedReconcileStoresNothing | pkg/controller/rollout/controller.go:186-246 | A reconcile that reads an object older than the stored one stores nothing |
| ProgressionRuns.RunKeepsAgreement | pkg/controller/rollout/controller.go:186-246 | In a run whose aborted and out-of-date reconciles are harmless (by the two conditions below) every VirtualService has the stored weight or the target of the current step, even when SetWeight fails partway |
| ProgressionRuns.AbortFreeRunKeepsAgreement | pkg/controller/rollout/controller.go:186-246 | In particular in every run without aborts and out-of-date reads |
| ProgressionLimits.CachedAgreesIff | pkg/controller/rollout/controller.go:186-246 | A reconcile of an out-of-date object keeps the agreement whatever it meets if and only if its target agrees with the stored object, or it does not reach the router: paused, unrouted, counters behind the spec, no target, or a promotion that is not under way |
| ProgressionLimits.FreshAgreesIff | pkg/controller/rollout/controller.go:186-246 | A reconcile of the current object keeps the agreement whatever it meets if and only if it is not an unpaused abort at a weight and a step that are not at 0 |
| ProgressionRuns.AbortAgreesIff | pkg/controller/rollout/controller.go:362-386 | A successful aborted reconcile keeps the agreement if and only if the stored weight or the target of the current step is 0, or there is no VirtualService |
| ProgressionRuns.LeavingAWeightStepRestoresAgreement | pkg/controller/rollout/steps.go:36-61 | From any state, leaving a step that sets a weight leaves the whole router and the status at that weight |
| ProgressionLimits.ResumeLeavesRouterBehind | pkg/controller/rollout/controller.go:362-386 | From a new Rollout that shifts 20 percent and waits, in agreement: after an abort and a resume the router is at 0 and the status at 20 |
| ProgressionRuns.AbortHoldsAndUnwinds | pkg/controller/rollout/controller.go:362-386 | While spec.abort is set no reconcile moves CurrentStep or CurrentWeight, and each successful unpaused one leaves all weights at 0 |
| ProgressionRuns.AbortedRunHolds | pkg/controller/rollout/controller.go:362-386 | The same over a whole aborted run |
| ProgressionRuns.PodHashIsNeverStamped | pkg/controller/rollout/progression.go:119-138 | A rollout with steps never reaches finalize, so its pod hash never changes |
| Completion.RolloutCompletes | pkg/controller/rollout/progression.go:47-114 | Under any sequence of reconciles in which nothing fails and the same pods are observed, a rollout of steps that need nobody (weights, scales, timed pauses, promotion with its delay, a manual one reached without a pause included) completes after exactly as many useful reconciles as there are writes to store (at most three per step), Healthy and at the weight its steps end with; a reconcile is useful unless only the clock is awaited |
| Completion.SpacedRolloutCompletes | pkg/controller/rollout/progression.go:47-114 | With reconciles further apart than any pause or delay, exactly as many reconciles as there are writes to store complete the rollout |
| ManualPromotion.ManualPromotionDecides | pkg/controller/rollout/steps.go:454-480 | Under Manual: with a pause condition nothing is stored; in phase Paused without one the condition AwaitingPromotion is; in any other phase without one the promotion is accepted |
| ManualPromotion.PromotedRolloutCompletes | pkg/controller/rollout/steps.go:591-593 | A rollout that waits at a manual promotion keeps waiting, router and weight unchanged, through any reconciles in which nothing fails, and completes once the user clears the pause |
| ManualPromotion.ManualPromotesByItself | pkg/controller/rollout/steps.go:591-593 | From a new Rollout whose only step is a manual promotion: reconciles alone promote and complete it |
| ManualPromotion.DisabledPromotionFails | pkg/controller/rollout/steps.go:454-459 | Under Disabled a Promote step is an error and moves neither the router nor the status |
| Completion.CalmSync | pkg/controller/rollout/progression.go:47-114 | Each such reconcile stores exactly one of the remaining writes, or nothing while a pause or the delay of a promotion runs |
| Completion.AbortCompletes | pkg/controller/rollout/controller.go:362-386 | An abort is complete after any two reconciles in which nothing fails and the same pods are observed |
| Completion.FailedGateRollsBack | pkg/controller/rollout/steps.go:356-378 | A failed analysis under Rollback ends, within four reconciles in which nothing fails, with the rollout Aborted and every VirtualService at 0 |
| Completion.RecordedMeans | pkg/controller/rollout/steps.go:424-440 | A recorded summary is present, other runs keep their places, there is one summary per run, and recording it again changes nothing (so it makes no version) |
| Executor.Reconciler.SyncRollout | pkg/controller/rollout/controller.go:186-246 | The reconcile, one read and then the writes, has the specified effect and error |
| Executor.Reconciler.DoExecute | pkg/controller/rollout/progression.go:47-69 | Dispatch on the current step |
| Executor.Reconciler.FindCurrentStep | pkg/controller/rollout/progression.go:79-93 | resolveCurrentStep |
| Executor.Reconciler.Advance | pkg/controller/rollout/progression.go:97-114 | advanceStep |
| Executor.Reconciler.DoFinalize | pkg/controller/rollout/progression.go:119-138 | finalize |
| Executor.Reconciler.DoSetWeight | pkg/controller/rollout/steps.go:36-61 | Router, verification, stamp, advance |
| Executor.Reconciler.DoPause | pkg/controller/rollout/steps.go:167-203 | First entry stamps, later entries compare the stored start |
| Executor.Reconciler.DoAnalysis | pkg/controller/rollout/steps.go:209-237 | Polls the run, records it, applies the policy |
| Executor.Reconciler.Record | pkg/controller/rollout/steps.go:424-440 | Replaces the summary of the same run or appends one |
| Executor.Reconciler.DoApplyPolicy | pkg/controller/rollout/steps.go:356-421 | Rollback and Abort write the spec, Pause writes the status, Ignore advances |
| Executor.Reconciler.DoPromote | pkg/controller/rollout/steps.go:454-480 | Manual promotion, the Promoting phase |
| Executor.Reconciler.PromoteTraffic | pkg/controller/rollout/steps.go:482-586 | Router, stamp, Services, delay, old ReplicaSets |
| Executor.Reconciler.PushCounts | pkg/controller/rollout/controller.go:338-357 | Writes the counters only when they changed |
| Executor.Reconciler.Abort | pkg/controller/rollout/controller.go:362-386 | Resets the router, then the phase |
| Executor.Reconciler.SetRouterWeight | pkg/trafficrouting/istio/istio.go:70-86 | One VirtualService after the other, up to the first failure |
| Executor.Reconciler.UpdateStatus | pkg/apis/rollouts/v1alpha1/types_rollout.go:22 | A status write commits only from a current copy, changes only the status, and an unchanged one makes no version |
| ExecutorCases.StatusWrite | pkg/apis/rollouts/v1alpha1/types_rollout.go:22 | A status write commits the status of a current copy and nothing else; one that changes nothing makes no version; an old copy or one write too many is refused |
| ExecutorCases.SpecWrite | pkg/apis/rollouts/v1alpha1/types_rollout.go:22 | A spec write commits the spec of a current copy as a new generation; one that changes nothing makes no version; an old copy or one write too many is refused |
| Executor.Reconciler.Update | pkg/apis/rollouts/v1alpha1/types_rollout.go:22 | The same for the spec |
| AnalysisRuns.RunKeepsFaithful | pkg/controller/analysis/controller.go:225-331 | In every reachable run each counter equals the measurements of its phase, Count their number, the stored phase the verdict recounted from the history, and every proper non-empty prefix recounts to Running |
| AnalysisRuns.HistoryIsBounded | pkg/controller/analysis/controller.go:284-331 | At most max(1, Count) conclusive measurements, at most FailureLimit + 1 failures, no streak above ConsecutiveErrorLimit + 1 |
| AnalysisRuns.VerdictMeaning | pkg/controller/analysis/controller.go:284-331 | Success means no failure at all and a full budget, failure means there was one, error means the history ends in more consecutive errors than the limit |
| AnalysisRuns.AggregateMeans | pkg/controller/analysis/controller.go:335-362 | A run fails with the first failing metric that is not a dry run, and runs while any is unfinished; a dry run never fails it |
| AnalysisRuns.RunExplainsPhase | pkg/controller/analysis/controller.go:87-164 | The stored phase is the aggregate of the recounted verdicts, or Failed by request; no run is ever Inconclusive |
| AnalysisRuns.TerminalRunIsFinal | pkg/controller/analysis/controller.go:95-100 | A terminal run never changes again |
| AnalysisRuns.RunKeepsSchedule | pkg/controller/analysis/controller.go:115-221 | As stored, to the whole second, each measurement starts at least Interval after the previous one finished, the first not before run start + InitialDelay |
| AnalysisRuns.RequeueIsInTime | pkg/controller/analysis/controller.go:107-163 | With the clock frozen during a reconcile, the requeue delay is at most the larger of one second and the time until any unfinished metric is due, up to the fraction of a second that storing times drops |
| AnalysisRuns.WaitEndsWhenDue | pkg/controller/analysis/controller.go:200-221 | isMetricDue holds exactly when both waits are over and never asks to wait beyond that |
| Readings.MeasurementsAreReadings | pkg/controller/analysis/controller.go:113-268 | Over every run the measurements of a metric are those of the readings taken of it, in order: Error exactly when the query failed, Successful exactly when the success condition matched, Failed when it did not and the failure condition did, Inconclusive otherwise |
| Readings.ReconcileMeasures | pkg/controller/analysis/controller.go:200-268 | One reconcile adds the measurement of its sample to exactly the metrics that are due (not settled, past the initial delay, and the interval, ten seconds by default, after the last measurement) and changes no other |
| Readings.VerdictCases | pkg/controller/analysis/controller.go:284-331 | The verdict on a history by the limits as they are written: four consecutive errors and no failure are borne by default |
| Readings.ErrorsInARow | pkg/controller/analysis/controller.go:301-312 | A metric is settled as Error exactly when its history ends in more consecutive errors than the limit, four by default |
| Readings.FailureBeyondLimitFailsTheRun | pkg/controller/analysis/controller.go:225-362 | A reading that fails, beyond the failure limit and on a metric that is not a dry run, fails the run |
| Readings.ReconcileStamps | pkg/controller/analysis/controller.go:87-178 | A run that is over stays; a termination fails a live one; a refused write changes nothing; start and end are stamped once, in whole seconds |
| Analysis.Reconciler.Reconcile | pkg/controller/analysis/controller.go:87-164 | The stored run, the requeue delay and the error |
| Analysis.Reconciler.Terminate | pkg/controller/analysis/controller.go:168-178 | A run that is not terminal becomes Failed |
| Analysis.EnsureMetricResults | pkg/controller/analysis/controller.go:182-196 | One result per metric, the last existing one of its name or a fresh one |
| Analysis.SampleDueMetrics | pkg/controller/analysis/controller.go:113-138 | The loop samples in place exactly the due metrics and keeps the shortest delay |
| Analysis.SampleMetric | pkg/controller/analysis/controller.go:225-268 | Appends one measurement and bumps its counter, leaving other metrics alone |
| Analysis.DerivePerMetricPhase | pkg/controller/analysis/controller.go:284-331 | The loop over the tail counts the trailing errors |
| Analysis.AggregatePhase | pkg/controller/analysis/controller.go:335-362 | The loop computes the aggregate |
| Gate.FailedGatePinsRollout | pkg/controller/rollout/steps.go:209-237 | Once the run of the current step is Failed or Error under Rollback or Pause, no interleaving of both controllers and of users takes CurrentStep past it while the run and the steps stay |
| Gate.FailedReadingShutsTheGate | pkg/controller/analysis/controller.go:225-362 | A visit that takes such a reading at an analysis step that rolls back or pauses on failure shuts the gate |
| Gate.GateOpensOnlyOnSuccess | pkg/controller/rollout/steps.go:209-237 | An analysis step that does not ignore failures is left only when the whole history of every metric that is not a dry run recounts to Successful |
| Gate.MeritMeansNoFailures | pkg/controller/analysis/controller.go:284-331 | Then none of those metrics ever measured a failure, and each was measured |
| Gate.FailedHistoryBlocks | pkg/controller/analysis/controller.go:335-362 | A failing history of one metric that is not a dry run makes the run Failed or Error |
| Gate.RunKeepsTrusted | pkg/controller/analysis/controller.go:87-178 | In every state of the two controllers together every run refines its history |
| Gate.LaterPassReusesTheRun | pkg/controller/rollout/steps.go:616-622 | Whatever both controllers and users do in between, back at a gate whose run was over the executor asks for the same run, which still has its verdict and history, is answered with that verdict, and creates no other |
| Gate.FinishedRunStays | pkg/controller/analysis/controller.go:95-100 | In every run of both controllers an AnalysisRun that is over stays, with its phase and results |
| Gate.PodHashStays | pkg/controller/rollout/progression.go:119-138 | With both controllers at work the pod hash of a rollout with steps never changes |
| Gate.SecondPassMeasuresNothing | pkg/controller/rollout/steps.go:209-237 | From a new Rollout whose only step is an analysis: the first pass creates a run that measures once and succeeds; the second arrives at the gate and is through it in the next reconcile, with no visit to the run |
| Istio.RewriteThenVerify | pkg/trafficrouting/istio/istio.go:203-274 | Verifying the weight just written succeeds if and only if the hosts differ (or the split is even or nothing was rewritten) and no matched route left alone gives the canary host another weight |
| Istio.VerifyOfAnotherWeightFails | pkg/trafficrouting/istio/istio.go:241-274 | Verifying any other weight fails as soon as one route was rewritten |
| Istio.LastRewriteWins | pkg/trafficrouting/istio/istio.go:203-237 | The last write wins, and writing the same weight again changes nothing |
| Istio.RewriteTouchesOnlyWeights | pkg/trafficrouting/istio/istio.go:203-237 | Order, unmatched and short routes and all other keys stay; the two weights add up to 100; an error if and only if an element is not an object |
| Istio.SetThenVerify | pkg/trafficrouting/istio/istio.go:70-121 | Over the whole router, a SetWeight that succeeds makes VerifyWeight answer true, whatever VirtualServices the references share |
| RouterWrites.SetWeightShifts | pkg/trafficrouting/istio/istio.go:70-237 | A SetWeight succeeds exactly when every reference has its VirtualService with a list of objects and enough patches are accepted; then every route with two destinations or more that a reference means (it names no routes, or this one) has exactly the canary at the weight and the stable host at the rest, and every other route is unchanged |
| RouterWrites.VerifyWeightReads | pkg/trafficrouting/istio/istio.go:100-274 | VerifyWeight is true exactly when every destination at the canary host, of every route a reference means, has the weight; otherwise the first reference that does not show it decides between false and an error |
| Istio.RewriteHTTPRoutes | pkg/trafficrouting/istio/istio.go:203-237 | The loop changes the matched routes in place and collects them all |
| Istio.VerifyHTTPWeight | pkg/trafficrouting/istio/istio.go:241-274 | The nested loops decide the predicate |
| Istio.Provider.PatchVirtualService | pkg/trafficrouting/istio/istio.go:156-185 | One VirtualService is replaced, or nothing changes |
| Istio.Provider.SetWeight | pkg/trafficrouting/istio/istio.go:70-86 | References in order up to the first failure |
| Istio.Provider.VerifyWeight | pkg/trafficrouting/istio/istio.go:100-121 | True, false or an error of the first reference that does not pass |

## Left out

- Manager wiring, informers, work queues, events, logging, RBAC, CRD schemas and deep-copy code: they decide when a reconcile runs, not what it does.
- The routers other than Istio, the experiment controller, rollback.go and recreate.go: the first two are stubs in the source; a rollback reaches the model as a template change, and the Recreate strategy only through the sizes it asks for.
- Pod template hashing, hash collisions, owner references, labels and template materialization: a template is an integer, and the new and old ReplicaSets are given to the executor's handlers.
- 32-bit overflow of sums and differences of sizes; only the product in getReplicaSetFraction and the Istio weights wrap as in the source. Revision numbers do not overflow 64 bits.
- The value a platform converts an infinite or undefined quotient to: a max-replicas annotation of zero gives an unknown 32-bit number.
- Reads from a stale cache of anything but the Rollout itself.
- Aliasing between the objects a reconcile holds: stored objects are values, and only slices, maps and fields that the source updates in place are arrays and fields here.
- Copying of Deployment annotations to the new ReplicaSet: independent of the revision annotations.
- Messages in conditions and phases, and the requeue delays of the executor's handlers.
- The wiring of the Istio provider to a Rollout (missing configuration or hosts): each is a plain error before any effect.
- Rolling.DeploymentController.RolloutRolling: takes the new and old ReplicaSets as given and ends before the cleanup and the status write, which are in Revisions, History and Progress; no run joins all of them.
- Proportional.SpreadReachesAllowedSize: requires positive size annotations and 32-bit products, as the comment in the source assumes.
- Revisions.NumbersAreNeverReused: leaves out deletions by users and ReplicaSets that are being deleted, and requires that no cleanup is to keep nothing without knowing the new ReplicaSet; CleanupLosesTopIff says exactly when that matters.
- Completion.RolloutCompletes: covers the steps the executor completes on its own, given time; an indefinite Pause and an Analysis wait for something outside it, and a manual promotion that is paused for the user, for which see ManualPromotion.PromotedRolloutCompletes.
- Revisions.RevisionKeeper.GetNewReplicaSet: the names of created ReplicaSets are inputs, so the recovery from an existing name and the collision count are left out; the initial size it computes is in RollingRuns.Created and the conditions it sets are in ProgressRuns.
- RollingRuns.FloorBreaksIff: requires sound status of the old ReplicaSets (beyond that RunKeepsFloor gives a bound) and, for the half that says the floor breaks, writes enough for the whole reconcile.
- Executor.Reconciler.SyncRollout: the sizes of ReplicaSets are not part of the executor's state (they are in Splitting), and the outcome of reconcileReplicaSets and reconcileReplicas is one input.
- Executor.Reconciler.DoFinalize: the cleanup of old ReplicaSets it starts is one success or failure here; what it deletes is in History.
- Gate.FailedGatePinsRollout: the AnalysisRun is not deleted and the step list is not edited; run names are not truncated to 63 characters.
- AnalysisRuns.RequeueIsInTime: reads the clock once per reconcile.
