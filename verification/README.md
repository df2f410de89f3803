# Verification of the orakel-of-funk operator

The operator finds out which Kubernetes security-context settings a workload tolerates. For a
`WorkloadHardeningCheck` it clones the namespace of the workload, records a baseline, runs one check per setting in a
clone of its own, compares the logs with the baseline, merges the settings of the checks that did not fail into a
recommendation, and runs the workload once more with it. This project models the logic of those steps and proves what
they promise together. `dafny verify dfyconfig.toml` checks everything.

- **Log normaliser** (`Replace`, `Regex`, `Normalize`, `Formats`, `WholeLines`, `Erasure`, `ErasureLimit`, `Separators`,
  `Characters`). The seven patterns are data, matched with the leftmost-first, greedy semantics of RE2 and an ASCII
  `\b`; a pass is a scan that replaces every leftmost match. The output is a joint normal form of all seven patterns.
  The argument is that a match in the output of a pass cannot overlap a token, so its text was copied, and that only the
  last four patterns look at their neighbours, where they demand the same word boundaries that a token provides.
  `Formats` says what the patterns match without regular expressions, so that the results read as statements about
  timestamps. `Separators` shows which characters split a line into parts that are normalised separately, and
  `Characters` spells out white space, digits, word characters and months.
- **Check executor** (`RunIds`, `ExecutorProtocol`, `ExecutorRuns`, `CheckExecutor`). Submissions, the end of a
  submitted function, `removeRun`, `wg.Done`, the lookup and the cancellation of `Cancel`, the snapshot of
  `CancelByPrefix` and shutdown are separate steps of one transition system. The class has the source's fields; every
  method makes steps of that system.
- **Security contexts** (`SecurityContexts`, `ContextFields`, `ContextHeap`, `Checks`, `Recommendation`, `FinalRun`,
  `RecommendedFields`, `Manager`). The merges as a monoid on values, the same merges on a heap with shared
  `Capabilities` objects, the five checks, the fold over the check runs in arbitrary order, its projection and the final
  run. `ContextFields` and `RecommendedFields` say of every field of a workload, in the pod and in each container, where
  its value comes from. `Drop` lists are compared as sets.
- **Reconciling** (`ReconcileProtocol`, `ReconcileInvariant`, `ReconcileSafety`, `ReconcileHistory`, `ReconcileEntries`,
  `ReconcileTrace`, `ReconcileConditions`, `ReconcileRequired`, `ReconcileTruth`, `ReconcileRoutes`, `ReconcileRuns`,
  `ConditionList`). Reconcile passes (one at a time) and runners (one per check type) interleave on one status record. A
  pass decides on the resource it was started with and on the copy of its manager. The tests that read the resource
  again drop the error of `RefreshWorkloadHardeningCheck`, so where a pass makes such a test the copy may be refreshed
  or not. Every write may fail, before or after it changed the copy. `ReconcileHistory` and `ReconcileTrace` derive from
  a run what its pass has tested, read and done, `ReconcileConditions` and `ReconcileRequired` exactly which steps make
  a condition True and submit a run, `ReconcileTruth` that entries say what was recorded, `ReconcileEntries` which
  entries a recommendation merges, and `ReconcileRuns` builds the runs that break a promise from the routes of
  `ReconcileRoutes`.
- **Namespaces** (`NamespaceNames`, `Bindings`). Generated namespace names, and cluster role bindings across any mix of
  clones and deletions.

Some promises turn out to hold only under a condition:

- A line that is one timestamp becomes one `<TIME>`, except exactly for a time of day whose fraction has ten digits: the
  earlier pattern for seconds since 1970 takes the fraction (`WholeLines.WholeTimestampErased`).
- A timestamp of any format between separators becomes one `<TIME>`, with the same exception, whatever the rest of the
  line is (`Separators.SeparatedTimestampErased`). Exactly those characters are separators that are neither letters,
  digits, underscores or white space nor one of `-:.,+` (`Separators.SplitsExactly`).
- Lines that differ in one date-time only normalise alike, whatever the date-times and what follows them, exactly if
  the first pass over the text before them leaves no unfinished date-time at its end, one that lacks the minutes of its
  offset or their last digit: it takes the first digits of the year that follows
  (`ErasureLimit.DateTimesErasedExactly`). For example, `2025-07-07T13:59:39+20:` is unfinished.
- The recommendation is independent of the map order exactly if the runs agree pairwise; the user and the group check
  disagree when the resource presets a pod user other than 1000 and no container user
  (`Recommendation.ChecksOrderIrrelevant`).
- The final run tests everything that is recommended exactly if no run supplies a seccomp profile or supplemental groups
  that the workload lacks (`FinalRun.FinalRunTestsEverything`).
- A recommendation is made only when the baseline is recorded. It is made only when every required check is recorded,
  provided that the pass could look up the workload (`ReconcileHistory.RecommendationFollowsChecks`). When the lookup
  fails, `GetRequiredCheckRuns` returns no checks at all (`internal/workload/check_types.go:19-23`), and the pass
  recommends what the entries that are filed merge to. This can happen in every reachable state between two passes
  that has a recorded baseline and no analysis yet, whatever the template requires
  (`ReconcileRuns.FailedLookupRecommends`, `RecommendationWithoutChecks`). Only if asking for an absent recording is an
  error, the baselines must be stored, and then every recommendation needs them (`RecommendationNeedsBaselines`).
- A recommendation is built from the entry of a check exactly if it had been filed when the analysis read the entries,
  and every earlier analysis that wrote entries back since the filing had read them after it; then it merges its
  context, unless the run is marked failed (`ReconcileEntries.RecommendationMergesExactly`). In terms of steps, a
  required check is merged as long as the run takes none of five careless steps for this check, whatever happens to the
  others (`ReconcileEntries.CarefulRunsMissNothing`): the condition of a check is set before its entry is filed, so an
  entry is missed when filing it fails, when its runner ends before that, when the operator restarts before that, or
  when the analysis reads the entries before that; and the analysis writes back the entries it has read, so one that was
  filed in between is lost. Examples show a run for each of the five steps alone that misses a successful check
  (`ReconcileRuns.FailedFilingMisses`, `EndedRunnerMisses`, `RestartMisses`, `EarlyReadingMisses`, `LostUpdateMisses`).
- A `FinalCheck` condition exists only together with a recommendation, unless the status update of `SetRecommendation`
  fails after it changed the copy of the pass (`ReconcileSafety.FinalRunHasRecommendation`, `LostExactly`). Conversely,
  whenever the first recommendation is lost, a `FinalCheck` condition without one can follow
  (`ReconcileRuns.EveryFirstLossCanShow`), and such states are reachable (`FinalCheckWithoutRecommendation`).
- The user and the group check need both parts of a preset context, the other three only its container part. The source
  dereferences nil for a part that is missing; the contracts ask for the parts that the checks at hand use, and no more
  (`Checks.HasParts`).

The documentation of `Reconcile` says that the failed final run finishes the resource; the code submits it again, and
the model follows the code. The two baseline runs share one condition, so "baseline recorded" means that one of them is
stored, or that the resource refers to recordings.

## Model

| member | source | states |
|---|---|---|
| Normalize.NormalizeTimestamps | pkg/orakel/normalize.go:35-40 | the loop over the patterns gives the seven replacements in order, and no pattern matches anywhere in its result |
| Normalize.PatternsWellOrdered | pkg/orakel/normalize.go:7-28 | no pattern can match a text that overlaps `<TIME>`; the first three look at their match only, the last four stand between word boundaries |
| Normalize.OldMatch | pkg/orakel/normalize.go:35-40 | a match in the output of a pass stood already in its input, at a place where the pass did not match |
| Normalize.PassRemoves | pkg/orakel/normalize.go:35-40 | one pass leaves no match of its own pattern, also not across inserted tokens |
| Normalize.PassPreserves | pkg/orakel/normalize.go:35-40 | a later pass makes no earlier pattern match again |
| Normalize.PassesReachNormalForm | pkg/orakel/normalize.go:35-40 | after any number of passes, none of the patterns applied so far matches |
| Normalize.OutputInNormalForm | pkg/orakel/normalize.go:35-40 | for every line, none of the seven patterns matches anywhere in the output |
| Normalize.FixedExactlyInNormalForm | pkg/orakel/normalize.go:35-40 | a line is left alone exactly if no pattern matches in it; normalising twice is normalising once |
| Formats.IsoMeans | pkg/orakel/normalize.go:8-9 | the first pattern matches exactly the texts date, T, clock, optional fraction, Z or offset |
| Formats.CommonMeans | pkg/orakel/normalize.go:11-12 | the second matches exactly date, white space, clock, optional fraction, optional offset |
| Formats.SyslogMeans | pkg/orakel/normalize.go:14-15 | the third matches exactly month name, white space, one or two digits, white space, clock |
| Formats.UnixMillisMatches | pkg/orakel/normalize.go:17-18 | the fourth matches exactly ten digits, a dot and digits that stand alone |
| Formats.UnixSecondsMatches | pkg/orakel/normalize.go:20-21 | the fifth matches exactly ten digits that stand alone |
| Formats.TimeMillisMatches | pkg/orakel/normalize.go:23-24 | the sixth matches exactly a clock, a dot or comma and digits that stand alone |
| Formats.TimeOnlyMatches | pkg/orakel/normalize.go:26-27 | the last matches exactly a clock that stands alone |
| Characters.SpaceExactly | pkg/orakel/normalize.go:11-12 | a date and a time with one character between them become one token exactly if it is a tab, newline, form feed, carriage return or blank |
| Characters.DigitExactly | pkg/orakel/normalize.go:26-27 | a time becomes a token exactly if its last character is one of the ten digits |
| Characters.WordExactly | pkg/orakel/normalize.go:26-27 | a time next to one character becomes a token exactly if that is no ASCII letter, digit or underscore |
| Characters.MonthExactly | pkg/orakel/normalize.go:14-15 | three characters before a day and a time belong to the token exactly if they are one of the twelve month names |
| Formats.NormalizedHasNoTimestamps | pkg/orakel/normalize.go:32-40 | no text of the seven formats occurs in any output, and a line is left alone exactly if none occurs in it |
| WholeLines.WholeTimestampErased | pkg/orakel/normalize.go:5-40 | a line that is one timestamp becomes one token exactly if it is not a time with a fraction of ten digits; this depends on the order of the patterns and on their greed |
| Erasure.IsoConsumesDateTime | pkg/orakel/normalize.go:8-9 | the preferred match at a date-time of section 5.6 of RFC 3339 (upper-case T and Z) is the whole of it, fraction and offset included |
| ErasureLimit.PrintExample | pkg/orakel/normalize.go:8-9 | an example of a date-time as it is written, with fraction and offset |
| Erasure.FirstPassErases | pkg/orakel/normalize.go:9-40 | after a prefix that is empty or ends in a character the first pattern cannot contain, the first pass puts the token in place of the date-time and treats the two sides separately |
| Erasure.DateTimesErased | pkg/orakel/normalize.go:30-40 | lines that differ only in such a date-time normalise to the same text |
| ErasureLimit.DateTimesErasedExactly | pkg/orakel/normalize.go:7-40 | for every text before, any two date-times and any text behind are erased alike exactly if the first pass over the text before leaves no date-time at its end that lacks the minutes of its offset or their last digit |
| ErasureLimit.OnlyOffsetCrosses | pkg/orakel/normalize.go:8-9 | a match of the first pattern that starts before a date and ends in or behind it takes the digits of the year for the minutes of its offset, and ends there |
| ErasureLimit.UnfinishedDangles | pkg/orakel/normalize.go:7-40 | a concrete text behind which date-times are not erased |
| Separators.SplitsExactly | pkg/orakel/normalize.go:5-40 | a character splits every line into two parts that are normalised separately exactly if it is no letter, digit, underscore, white space or one of the marks that timestamps contain |
| Separators.SeparatedTimestampErased | pkg/orakel/normalize.go:5-40 | a timestamp of any of the seven formats between separators or line ends becomes one token, whatever stands before and behind, exactly if it is not a time with a fraction of ten digits |
| RunIds.ParseAfterPrint | internal/executor/executor.go:14-38 | parsing restores the three parts exactly if the namespace has no slash and the type no colon |
| RunIds.PrintAfterParse | internal/executor/executor.go:14-38 | printing restores every text that parses; a text parses exactly if a colon follows a slash |
| RunIds.DeletionPrefixExact | internal/controller/workload/workloadhardeningcheck_controller.go:463-465 | the deletion prefix selects the runs of that namespace and name and no others, when namespaces have no slash and names no colon |
| RunIds.DeletionPrefixSelects | internal/controller/workload/workloadhardeningcheck_controller.go:463-465 | for any names, the prefix selects exactly the runs of that namespace whose name and type, joined by a colon, start with the name and a colon |
| RunIds.DeletionPrefixNeedsColonFreeNames | internal/executor/executor.go:40-44 | every name is in danger: a resource whose name goes on with a colon has its runs selected too, and it is another resource |
| ExecutorProtocol.StepKeepsInv | internal/executor/executor.go:91-232 | every step keeps entries, wait group, cancellations and pending cancel calls consistent |
| ExecutorProtocol.ActiveRunsExact | internal/executor/executor.go:135-156 | the entries are the goroutines that have not run removeRun, at most one per identifier; a submission is accepted exactly if there is none for it |
| ExecutorProtocol.RemoveRunNeverMisses | internal/executor/executor.go:210-232 | removeRun always deletes its own entry and never one of a later submission |
| ExecutorProtocol.WaitGroupExact | internal/executor/executor.go:145-153 | the wait group counts the entries and the goroutines between removeRun and Done; it is zero exactly if every goroutine has ended, and then nothing is active |
| ExecutorProtocol.ShutdownWaitedForAll | internal/executor/executor.go:103-128 | when the wait at shutdown ends without its timeout, every run submitted before has ended, and stays so |
| ExecutorProtocol.CancelByPrefixCancelsSnapshot | internal/executor/executor.go:180-193 | when CancelByPrefix returns, every run of its snapshot has a cancelled context, whatever was submitted, ended or cancelled meanwhile |
| ExecutorProtocol.OnlyLaterLookupsCancel | internal/executor/executor.go:167-176 | no Cancel reaches a run of another identifier, or one that was submitted after its lookup |
| ExecutorRuns.CancelByPrefixReturns | internal/executor/executor.go:180-193 | every identifier can be active and selected by every prefix of it in a call of CancelByPrefix that returns |
| ExecutorRuns.LaterSubmissionEscapes | internal/executor/executor.go:180-193 | a run with the prefix that is submitted after the snapshot is still running and not cancelled when the call has returned |
| ExecutorRuns.ShutdownReached | internal/executor/executor.go:103-128 | the wait at shutdown can end after a run was submitted |
| CheckExecutor.CheckExecutor.constructor | internal/executor/executor.go:79-86 | a new executor is in the initial state |
| CheckExecutor.CheckExecutor.Start | internal/executor/executor.go:91-93 | makes the executor accept submissions |
| CheckExecutor.CheckExecutor.Submit | internal/executor/executor.go:135-156 | makes the submission step; answers whether the identifier was free |
| CheckExecutor.CheckExecutor.IsRunning | internal/executor/executor.go:159-164 | true exactly if a goroutine of that identifier has not run removeRun |
| CheckExecutor.CheckExecutor.ActiveRunCount | internal/executor/executor.go:196-200 | the number of goroutines that have not run removeRun |
| CheckExecutor.CheckExecutor.RemoveRun | internal/executor/executor.go:223-232 | makes the removal step |
| CheckExecutor.CheckExecutor.FinishRun | internal/executor/executor.go:210-220 | the deferred calls make the three steps in their order and give back entry and count |
| CheckExecutor.CheckExecutor.Cancel | internal/executor/executor.go:167-176 | undisturbed, cancels the run of the identifier and changes nothing else |
| CheckExecutor.CheckExecutor.SnapshotByPrefix | internal/executor/executor.go:181-188 | lists the active identifiers with the prefix, each once |
| CheckExecutor.CheckExecutor.CancelByPrefix | internal/executor/executor.go:180-193 | undisturbed, cancels exactly the active runs with the prefix |
| SecurityContexts.MergePodSecurityContexts | pkg/util/securitycontext/util.go:17-64 | the field-by-field loop-free merge equals the pure merge |
| SecurityContexts.MergePodLaws | pkg/util/securitycontext/util.go:17-64 | the pod merge is associative and idempotent with nil as unit, and absorbs what was merged before |
| SecurityContexts.MergeContainerLaws | pkg/util/securitycontext/util.go:67-133 | the same for the container merge, with Drop as a set |
| SecurityContexts.ApplyIsAction | pkg/util/securitycontext/util.go:156-218 | applying two contexts one after the other is applying their merge once, on any number of containers and init containers; nil changes nothing |
| ContextFields.ApplyFills | pkg/util/securitycontext/util.go:17-218 | in the pod, and in every container and init container, each copied field has the workload's own value where it is set and the new one otherwise, Drop is united, and every field that is not copied stays; a container without a context gets the whole new one |
| ContextFields.FillsDetermines | pkg/util/securitycontext/util.go:17-133 | that holds of nothing but the merges |
| ContextFields.PodConverted | api/v1alpha1/workloadhardeningcheck_types.go:113-133 | the conversion carries every field over and sets no other |
| ContextFields.ContainerConverted | api/v1alpha1/workloadhardeningcheck_types.go:157-190 | the same for containers; a list of capabilities to drop is carried over unless it is empty |
| ContextHeap.SecurityContext.DeepCopy | pkg/util/securitycontext/util.go:67-80 | a copy with the same meaning that shares nothing |
| ContextHeap.MeaningIsFields | pkg/util/securitycontext/util.go:67-133 | the meaning of an object is that of its fields, with Drop read as a set |
| ContextHeap.CollectKeys | pkg/util/securitycontext/util.go:88-108 | the keys of the map in some order; none gives nil |
| ContextHeap.MergeDrop | pkg/util/securitycontext/util.go:80-108 | unites the Drop lists, although the merged context may share the object of the extending one, whose meaning stays |
| ContextHeap.MergeContainerSecurityContexts | pkg/util/securitycontext/util.go:67-133 | the result has the value of the pure merge, and every context that existed keeps its meaning, whatever is shared |
| ContextHeap.MergeIntoContainers | pkg/util/securitycontext/util.go:199-213 | one shared object in many containers: each gets the value of the pure merge |
| ContextHeap.Workload.MergeIntoAllContainers | pkg/util/securitycontext/util.go:199-213 | containers and init containers get the value of the pure merge through the one shared object |
| ContextHeap.ToK8sSecurityContext | api/v1alpha1/workloadhardeningcheck_types.go:157-190 | a fresh object with the value of the conversion |
| ContextHeap.ApplyDefaultsToContainers | pkg/util/securitycontext/util.go:163-177 | the same loop with an object of its own for each container |
| ContextHeap.Workload.ApplySecurityContext | pkg/util/securitycontext/util.go:180-218 | the pod spec becomes the pure application, and every context that existed keeps its meaning |
| ContextHeap.Workload.ApplySecurityContextToPodSpec | pkg/util/securitycontext/util.go:156-178 | the same for the defaults of a check |
| Checks.AnyContainerWeak | pkg/checks/readonlyrootfilesystem.go:26-39 | the loop with its early return finds out whether some container lacks the hardened value |
| Checks.ChecksConverge | pkg/checks/dropallcapabilities.go:31-60 | after its own context, a check is needed again exactly if some container explicitly held the weak value; user, group and dropAllCapabilities never are |
| ContextFields.NeededExactly | pkg/checks/readonlyrootfilesystem.go:25-39 | a check is needed exactly if the pod lacks what it sets, or some container does: no capability dropped, a root file system that is not read-only, privilege escalation that is not denied, or no context at all |
| ContextFields.UserAsks | pkg/checks/user.go:18-35 | user 1000 and no root, in the pod and in the containers, unless preset; nothing else changes |
| ContextFields.GroupAsks | pkg/checks/group.go:19-41 | user 1000, the group of the user, the file system group of the group, and user and group of the pod for the containers, unless preset; nothing else changes |
| ContextFields.ContainerChecksAsk | pkg/checks/allowprivilegeescalation.go:17-23 | the other checks ask for dropping ALL, true and false, unless preset; nothing else changes |
| ContextFields.UserTested | pkg/checks/user.go:18-35 | in the workload under test, the pod and every container run as their own user, or the preset one, or 1000; the pod runs without root unless it or the preset says otherwise, and so does a container without a context of its own |
| ContextFields.GroupTested | pkg/checks/group.go:19-41 | the same for user, group and file system group, where what is unset follows along the chain |
| ContextFields.DropAllTested | pkg/checks/dropallcapabilities.go:31-37 | in the workload under test, a container drops a capability exactly if it did so itself, the preset lists it, or nothing is listed and it is ALL |
| ContextFields.FlagTested | pkg/checks/readonlyrootfilesystem.go:17-23 | the two flags are tested as true and as false in every container that does not set them |
| ContextFields.SharedContextAsks | internal/workload/check_types.go:58-70 | a context shared by any checks sets what each of them is about, and beyond the preset nothing but what checks ask for |
| Checks.ChecksNeverOverwrite | pkg/checks/group.go:19-41 | no sequence of checks on a shared base that has the parts they use overwrites a field that was set or adds a part, and none of them changes it again |
| Checks.DefaultsObject.GetSecurityContextDefaults | pkg/checks/user.go:18-35 | fills in its argument and returns the same object |
| Checks.GetSecurityContextForCheckType | internal/workload/check_types.go:58-70 | the object of the resource, filled in, or a fresh one |
| Checks.GetContexts | internal/workload/check_types.go:58-70 | with a preset context that has the parts these checks use, the checks of a pass get one and the same object, which holds the fields of all of them |
| Recommendation.Provenance | internal/workload/manager.go:191-212 | a recommended value is the workload's own or set by a run; the workload's own values survive; what some run sets is set |
| Recommendation.DropProvenance | internal/workload/manager.go:191-212 | Drop is exactly the union; what the merges do not copy stays the workload's own |
| Recommendation.OrderIrrelevantExactlyIfAgree | internal/workload/manager.go:209-212 | every order of the runs gives the same result exactly if the runs agree, pair by pair, on what the workload leaves unset |
| Recommendation.ChecksOrderIrrelevant | internal/workload/manager.go:177-212 | for checks from one unshared base with the parts they use, the order is irrelevant exactly unless user and group meet a preset pod user other than 1000 with no container user |
| FinalRun.GetRecommendedSecurityContext | pkg/workloadhardeningcheck/types.go:177-218 | there is a context exactly if a recommendation exists, and it is its projection |
| RecommendedFields.ProjectsFields | pkg/workloadhardeningcheck/types.go:183-213 | the context of the final run carries exactly user, group, file system group and runAsNonRoot of the pod, and user, group, runAsNonRoot, the two flags and Drop of the container |
| RecommendedFields.FinalRunFills | internal/runner/runner.go:397-408 | the final run gives the recommended values to the pod and to every container and init container that sets none of its own |
| RecommendedFields.InstalledExactly | internal/runner/runner.go:397-408 | a context is applied exactly if something is set in it |
| FinalRun.FinalRunTestsRecommendation | internal/runner/runner.go:397-408 | the workload under test has exactly the recommended value of every carried field and the recommended capabilities; all other fields are its own |
| FinalRun.FinalRunTestsEverything | pkg/workloadhardeningcheck/types.go:183-213 | everything recommended is tested exactly if no run supplies a seccomp profile or supplemental groups that the workload lacks |
| Manager.LoadBaselines | internal/workload/manager.go:78-104 | the first baseline that cannot be loaded decides between skipping and failing |
| Manager.AnalyzeCheckRuns | internal/workload/manager.go:68-149 | skips without baselines or runs, fails exactly if a recording is not there, and otherwise judges every run by its own recording |
| Manager.AnalysisOnlyFails | internal/workload/manager.go:115-148 | the analysis keeps names and contexts, never makes a failed run successful, and leaves a run successful exactly if it was, or its pods ran, and the verdict agrees |
| Manager.JudgedFully | internal/workload/manager.go:129-147 | a bad verdict adds its anomalies and appends its reason, or gives the first one; a good one changes neither; a run is successful exactly if it was, or its pods ran when nothing else was known, and the verdict is good |
| Manager.AnalysisKeys | internal/workload/manager.go:68-127 | results need both baseline recordings of the resource, or all that it refers to, and each run is judged by the recording under namespace, suffix and its name |
| Manager.AnalyzeAgain | internal/workload/manager.go:129-147 | analysing again changes no result; it repeats the reason of a failure, unless there is none |
| Manager.CollectContexts | internal/workload/manager.go:177-189 | collects the contexts of the runs that are not "baseline" and not marked failed |
| Manager.SetRecommendation | internal/workload/manager.go:175-225 | the recommendation is the workload's own context with the contexts of exactly these runs merged in, in some order; what the pod and the first container set survives, what the merges do not copy is theirs, and without such a run it is just their contexts |
| Manager.RecommendedDrop | internal/workload/manager.go:177-212 | a capability is recommended to be dropped exactly if the first container drops it or the context of a run that is not called baseline and not marked failed lists it |
| Manager.RecommendationUnique | internal/workload/manager.go:177-212 | where these runs agree, every execution gives the same recommendation |
| ReconcileSafety.StepKeepsInv | internal/controller/workload/workloadhardeningcheck_controller.go:67-454 | every step of passes, runners and restarts keeps the status, the copies of the pass and the runners backed by stored recordings and the recommendation |
| ReconcileInvariant.FactsGrow | pkg/workloadhardeningcheck/types.go:250-274 | no step removes a recording or the recommendation |
| ReconcileSafety.FinishedForever | internal/controller/workload/workloadhardeningcheck_controller.go:103-127 | once Finished is True it stays so in every run, and no check run is submitted any more |
| ReconcileConditions.FinishedExactly | internal/controller/workload/workloadhardeningcheck_controller.go:103-296 | in every run, a step makes Finished True exactly if it is a stored condition write of a pass whose last steps found a recommendation and a recorded final run, or a failed analysis, or a recorded baseline with a failed run |
| ReconcileConditions.FinishesExactly | internal/controller/workload/workloadhardeningcheck_controller.go:109-127 | a pass that has just begun on an unfinished resource with a recommendation and a recorded final run can end, and whenever it does with its writes stored, Finished is True, only Analysis is left beside it, and nothing else has changed |
| ReconcileConditions.AnalysedExactly | internal/controller/workload/workloadhardeningcheck_controller.go:130-176 | a step makes Analysis True exactly if it is a stored write right after a failed analysis or after the recommendation was to be stored |
| ReconcileConditions.AnalysesUnanalysed | internal/controller/workload/workloadhardeningcheck_controller.go:130-165 | in every run, entries are analysed and a recommendation is made only by a pass on a resource that had not been analysed when the pass started |
| ReconcileConditions.AnalysisFollows | internal/controller/workload/workloadhardeningcheck_controller.go:130-142 | once a pass on such a resource has found every required check recorded, it goes on to the analysis; on another one it does not |
| ReconcileConditions.BaselineExactly | internal/controller/workload/workloadhardeningcheck_controller.go:252-280 | the baseline becomes recorded exactly by a baseline run that has stored its recording, or by a pass that found the resource to refer to recordings and no baseline recorded |
| ReconcileConditions.RecordedExactly | internal/runner/runner.go:459-502 | a check and the final run become recorded exactly by their own run after it has stored its recording, successful or not |
| ReconcileConditions.SubmittedExactly | internal/controller/workload/workloadhardeningcheck_controller.go:186-345 | baseline runs and the final run become active exactly by a pass that has just found that they are needed and not active |
| ReconcileConditions.CheckSubmitted | internal/controller/workload/workloadhardeningcheck_controller.go:369-447 | a check run becomes active only by a pass that has just found it neither recorded nor active, or overdue |
| ReconcileConditions.SubmittedContexts | internal/controller/workload/workloadhardeningcheck_controller.go:186-447 | the final run starts with the carried fields of the recommendation in the copy of the pass, the baseline runs with what the resource presets, and a check with what it asks for |
| ReconcileRequired.SubmittedIsNeeded | internal/workload/check_types.go:16-56 | a check run becomes active only if the template that its pass has looked up last needs the check |
| ReconcileRequired.ParallelPassHandlesAll | internal/controller/workload/workloadhardeningcheck_controller.go:369-415 | in parallel mode, a pass that ends its submissions has submitted every check that the template needs, or found it recorded or active |
| ReconcileTruth.EntriesTellTruth | internal/runner/runner.go:206-327 | an entry is filed under the name of its run with the context it was given, and says success exactly if the pods were running in the stored recording; no other entry changes |
| ReconcileTruth.StoresRecording | internal/valkey/client.go:65-77 | a recording is stored as it is, under namespace, suffix and the type of its run |
| ReconcileTruth.RunnerConditions | internal/runner/runner.go:175-298 | a runner reports progress first, Unknown after a failure, and recorded after storing its recording, and changes no other condition |
| ReconcileTruth.OverdueIsUnknown | internal/controller/workload/workloadhardeningcheck_controller.go:211-258 | an overdue final run, baseline or check becomes Unknown |
| ReconcileTruth.KeysApart | internal/workload/manager.go:72-75 | each type of run has a recording of its own under namespace, suffix and name |
| ReconcileSafety.CheckRunsNeedBaseline | internal/controller/workload/workloadhardeningcheck_controller.go:278-302 | in every reachable state, an active check run has a baseline recording stored or referred to; its context sets what the check is about and asks for nothing but what checks ask for |
| ReconcileSafety.RecommendationAppears | internal/controller/workload/workloadhardeningcheck_controller.go:130-182 | a recommendation first appears with a baseline and, if the pass could look up the workload, with stored recordings of all checks that its template requires; it merges the contexts of the accepted runs that the pass has read |
| ReconcileHistory.ChecksFollowBaseline | internal/controller/workload/workloadhardeningcheck_controller.go:278-302 | in every run, a check run is submitted only by a pass in which an earlier test has found the baseline recorded |
| ReconcileHistory.RecommendationFollowsChecks | internal/controller/workload/workloadhardeningcheck_controller.go:130-182 | in every run, a recommendation appears or changes only by a pass in which earlier tests have found the baseline recorded and, if it could look up the workload, every check that the template requires |
| ReconcileHistory.RecommendationNeedsBaseline | internal/workload/condition_checks.go:49-68 | a recommendation, at any time, was made by a pass that had found the baseline recorded, and a baseline is available |
| ReconcileHistory.RecommendationIsJudged | internal/workload/manager.go:115-212 | unless the analysis was skipped, every merged context is that of an entry which this pass has read, which was not marked failed, and whose own recording got a good verdict |
| ReconcileRuns.FailedLookupRecommends | internal/workload/check_types.go:19-23 | from every reachable state between two passes with a recorded baseline, no recommendation and no analysis, a run exists that recommends what the filed entries merge to, although no condition, recording, runner or entry was added; an absent baseline recording stops it only if asking for it is an error |
| ReconcileRuns.RecommendationNeedsBaselines | internal/workload/manager.go:91-104 | if asking for an absent recording is an error, there is never a recommendation without the recordings of all baselines |
| ReconcileRuns.RecommendationWithoutChecks | internal/workload/check_types.go:19-23 | a reachable state with a recommendation, in which a required check has no condition, recording or runner |
| ReconcileEntries.RecordedChecksHaveEntries | internal/runner/runner.go:278-327 | in every run in which no step drops its entry, a check that is recorded has its entry, or its runner is about to file it |
| ReconcileEntries.RecommendationMergesRecorded | internal/workload/manager.go:106-212 | if no step dropped the entry of a check that the workload requires, and its runner was not about to file it when the analysis read the entries, its context is merged unless it is marked failed; the other checks do not matter |
| ReconcileEntries.CarefulRunsMissNothing | internal/workload/manager.go:106-212 | the same for every run without a careless step for this check |
| ReconcileEntries.EntryExactly | internal/workload/manager.go:106-167 | in every run, a check has an entry exactly if one was stored and every analysis that has written entries back since had read them after that |
| ReconcileEntries.RecommendationMergesExactly | internal/workload/manager.go:106-212 | whenever a recommendation is made, it merges an entry of a check exactly if that held when the analysis read the entries; its context is merged unless it is marked failed |
| ReconcileRuns.FailedFilingMisses | internal/runner/runner.go:300-327 | an example: a run, careful for all checks but for one failed filing, whose recommendation misses the only required check, recorded and successful |
| ReconcileRuns.EndedRunnerMisses | internal/runner/runner.go:278-327 | the same for a runner that ends between condition and entry |
| ReconcileRuns.RestartMisses | internal/runner/runner.go:278-327 | the same for a restart of the operator between condition and entry |
| ReconcileRuns.EarlyReadingMisses | internal/runner/runner.go:278-327 | the same for an analysis that reads the entries between condition and entry, without any failure |
| ReconcileRuns.LostUpdateMisses | internal/workload/manager.go:106-167 | the same for an analysis that writes back the entries it read before another one was filed, without any failure |
| ReconcileRuns.RecommendationCanMissARun | internal/runner/runner.go:278-327 | a reachable state in which the only required check is recorded and successful, the recommendation lacks its context, and its runner is still to file the entry |
| ReconcileSafety.FinalRunHasRecommendation | internal/controller/workload/workloadhardeningcheck_controller.go:186-247 | unless a recommendation was lost, a FinalCheck condition and a final run imply a recommendation, and each submission has a context |
| ReconcileSafety.LostExactly | internal/workload/manager.go:214-233 | a run has lost a recommendation, as the previous row uses it, exactly if one of its steps was a status update that failed after the copy was changed |
| ReconcileRuns.FirstLossIsJustLost | internal/workload/manager.go:214-233 | every step that loses the first recommendation, in every reachable state, leads to a state of the next row |
| ReconcileRuns.LostRecommendationShows | internal/workload/manager.go:214-233 | from every state in which the first recommendation was just lost and there is no FinalCheck condition, some continuation reaches one without a recommendation |
| ReconcileRuns.EveryFirstLossCanShow | internal/workload/manager.go:214-233 | so after every first loss, some continuation reaches a FinalCheck condition without a recommendation |
| ReconcileRuns.FinalCheckWithoutRecommendation | internal/workload/manager.go:214-233 | such a state is reachable, and so is a FinalCheck condition without a recommendation |
| ReconcileSafety.RecordingsComeFirst | internal/runner/runner.go:459-502 | a check condition is True, and an entry is filed, only with a recording stored under the key of the analysis; likewise for the baseline |
| ReconcileSafety.AnalysisFindsRecordings | internal/workload/manager.go:115-127 | the analysis never meets a run without a recording, and with baselines and an answering store it does not fail |
| ReconcileSafety.EntriesHaveContexts | internal/runner/runner.go:231-238 | all entries that a pass sees are filed under their names, with the context of their check; presets without a pod part are included |
| ConditionList.RemoveCheckConditions | internal/workload/condition_checks.go:14-46 | the loop keeps exactly the Finished and Analysis conditions |
| NamespaceNames.NamesClashExactly | internal/runner/runner.go:120-137 | names have at most 63 characters; two types share a namespace exactly if their lower-case forms agree on the characters there is room for |
| NamespaceNames.BaselinesApart | internal/runner/runner.go:120-137 | the baseline runs have different namespaces exactly if the cut namespace and the suffix have fewer than 53 characters |
| NamespaceNames.NameReads | internal/runner/runner.go:120-137 | the name reads namespace, cut to 45 characters, suffix and check type, joined by dashes, in lower case, cut to 63 characters |
| NamespaceNames.LowerExactly | internal/runner/runner.go:131-131 | lower case turns each of the 26 capital letters into its small one and leaves all other characters |
| Bindings.RetargetSubjects | internal/namespace/clone.go:188-194 | the in-place loop moves the service accounts of the source and leaves every other subject |
| Bindings.CloneNameDiffers | internal/namespace/clone.go:165-177 | names fit 253 characters; only a name of that length is given again, so that its clone cannot be created |
| Bindings.CloneNameExactly | internal/namespace/clone.go:163-178 | a clone is called like its original and the target, up to 250 characters; otherwise ten random characters follow, or fill the name up to 253 |
| Bindings.CloneExactly | internal/namespace/clone.go:156-194 | a clone differs from its original exactly in the namespaces of the moved service accounts and in four labels, whose values are given |
| Bindings.CloneMovesAccounts | internal/namespace/clone.go:156-194 | a clone has no service account of the source left, keeps every other subject in order, refers to the target instead and is labelled for it |
| Bindings.Cluster.CloneClusterRoleBindings | internal/namespace/clone.go:135-206 | adds only clones of bindings that refer to the source, all of them unless one cannot be created, and counts them |
| Bindings.AllCloned | internal/namespace/clone.go:135-206 | when the API lists all bindings and nothing fails, every binding that refers to the source has its clone |
| Bindings.Cluster.Clone | internal/namespace/clone.go:18-53 | refuses a target that exists; if creating the namespace is refused, changes nothing; otherwise adds it and the clones that could be created |
| Bindings.Cluster.Delete | internal/namespace/delete.go:16-57 | removes the namespace and the bindings labelled for it whose deletion is not refused; without the namespace, or when its deletion is refused, nothing |
| Bindings.BindingsConserved | internal/namespace/clone.go:135-206 | under any mix of clones to fresh targets and deletions, each of which may stop in the middle or be refused, the original bindings and those that refer to the source stay the same; the cluster is what it was exactly if all targets are fresh again, and after complete deletions it is enough that their namespaces are gone |
| Bindings.CloneThenDelete | internal/namespace/delete.go:36-54 | cloning, if it created the namespace, and deleting again restores the cluster exactly if no binding was labelled for the target before; if the namespace was refused, nothing changed |

## Left out

- CheckExecutor.CheckExecutor.Submit: requires that Start was called; before, the source panics because there is no context to derive from.
- ExecutorProtocol.ShutdownWaitedForAll: says nothing when the shutdown timeout ends the wait; time is not modelled.
- SecurityContexts.MergePodSecurityContexts: works on values, since no pod context is written to after it is shared; the identity of the result is not modelled.
- ContextHeap.MergeDrop: does not model that appending may write into spare capacity of a shared backing array.
- Checks.HasParts: the panic for a preset context that lacks a part is not modelled as an outcome; a runner or the operator that ends early covers its effect on the status.
- Checks.GetContexts: covers a pass that does not fetch the resource again between two checks; a fetch gives the manager a new object.
- ReconcileSafety.AnalysisFindsRecordings: one step of the model reads the entries and all recordings; the source reads the recordings one after the other after the status, while runners may store others.
- Manager.LoadBaselines: whether asking for an absent recording is an error is left to the client library, which is not part of this model; both answers are possible.
- Manager.AnalyzeCheckRuns: the verdict on a recording is an arbitrary function of it, and what asking for a key answers is a parameter; the log clustering is not part of this model.
- ReconcileSafety.RecordingsComeFirst: recordings expire after 24 hours in the source and never here.
- ReconcileSafety.StepKeepsInv: assumes a strongly consistent status store and one operator; a status update is one atomic read, change and write, because conflicting updates are retried.
- Overdue checks depend on time; here a run in progress may be treated as overdue or not at any moment.
- The exact number of submissions of a sequential pass, liveness ("every check eventually finishes") and fairness.
- Kubernetes API traffic, events, finalizers, a namespace that stays in the state Terminating, pod polling, scaling, metrics and log recording; their outcome in RunCheck is arbitrary.
- Bindings.Cluster.Clone: the copying of namespaced resources is not modelled, only namespaces and cluster role bindings.
- `internal/executor/resume.go`, the NamespaceHardeningCheck controller, the webhooks, command line, generated code and charts: wiring, or the same merges and executor again.
- Texts are sequences of characters of one byte each; the lower-casing of recording keys is not modelled, since the names of the check types differ also in lower case.
- Check types are an enumeration; the choice of a condition type by searching the type name for "baseline" and "final" is modelled by its result for the types in use.
