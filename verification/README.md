# Verified model of the agent's safety machinery

This project models, in Dafny, the part of the remediation agent that decides
whether, when and how often it may change a cluster, and the protocols that keep
those decisions intact across controllers, restarts and concurrent handlers. The
agent itself is written in Go; here its code is restated as Dafny classes whose
methods change state the way the Go methods do, each proved against a function
on values, and its promises are proved about those functions, over every run.

`dafny verify dfyconfig.toml` checks the whole project.

## How it is laid out

| file | models |
|---|---|
| `ApprovalFixes.dfy`, `ApprovalProposals.dfy` | changes that wait for a person, as data, the change each is rebuilt into, and the findings that propose them |
| `ApprovalEffects.dfy` | what an approved change does to the cluster |
| `ApprovalQueue.dfy` | one step of the approval queue, in memory and in stored form |
| `ApprovalStore.dfy` | the queue of one controller and the ConfigMap it is loaded from and written to |
| `ApprovalProtocol.dfy`, `ApprovalOnce.dfy`, `ApprovalWindow.dfy` | any number of controllers over one stored queue: interleaving, conflicts, lost answers, crashes; what becomes of a proposal from then on |
| `Gate.dfy`, `GateRuns.dfy` | the mutation gate and its two read-only twins; calls whose atomic steps interleave |
| `GateAnswers.dfy` | what each answer of the gate rests on, and what is never sent |
| `GateLimits.dfy`, `GateOvertaking.dfy`, `GatePreview.dfy` | exactly when two limits of the gate hold over overlapping calls, and when calls that only answer tell on no fix; what a preview and a dry run foretell |
| `CircuitBreaker.dfy`, `ActionLimiter.dfy`, `BlastRadius.dfy`, `BlastCrowd.dfy`, `PolicyBudget.dfy`, `Dedup.dfy`, `QuietHours.dfy` | the trackers the gate and the handlers ask |
| `PolicyScope.dfy`, `PolicyConfig.dfy` | policy snapshots, hot reload, the ceiling, the namespaces chosen for fixes; the keys of the policy ConfigMap |
| `Forwarder.dfy`, `ForwarderRuns.dfy` | the bounded event buffer, and its runs with records during a flush |
| `Recorder.dfy`, `Replicate.dfy` | the event ring over its file; replication and backfill |
| `ReloadRefs.dfy`, `ReloadRules.dfy` | which changes restart which workloads, and the annotations that say so |
| `ReloadWaves.dfy`, `ReloadVerdicts.dfy`, `Reloader.dfy`, `ReloadLeaders.dfy` | waves of restarts; what a wave makes of the health it sees; the reloader that runs them; a change queued by several controllers |
| `FixTracker.dfy` | whether a fix helped |
| `NetProbe.dfy` | the rotating probe of Services |
| `Prelude.dfy`, `Text.dfy`, `Sorting.dfy` | options and time counts, Go's string functions, sorting |

## How to read it

- Clocks are parameters, in nanoseconds. Where the code reads the clock twice the
  model reads it twice. Runs assume one clock that does not go back. In runs of the
  gate the readings are ordered only where the code orders them: under the lock of
  one tracker, and within one call, which reads the clock after its last step and so
  after everything done by then. Steps on different trackers may overlap, and a
  reading handed to the policy's budget may be overtaken on its way to the lock.
- Outcomes the agent does not decide are either parameters (`answers`, `ticks`,
  `checks`) or chosen freely inside a method (`:= *`): API replies, health checks,
  posts, disk writes, what other goroutines do in between.
- The approval protocol takes these facts from outside: a ConfigMap version is
  never reused, ids drawn for approvals are new, a change that is proposed was made
  by its builder, and rebuilding a stored spec gives a change that carries the spec
  (proved of the code's own builder). A run may begin with any stored queue that
  keeps its items under their own ids and results on approved items only.
- Where a promise does not hold of the code in general, the project states exactly
  when it does: the rate by the clock of sending (`SendingKeepsTheRate`), the hourly
  limit (`HourlyLimitIffAlone`), a reading overtaken by a call that only answers
  (`OutcomesKeptIffNotOvertaken`), the preview's line about policies
  (`PolicyLineRightOfAllIff`), the order in which a target receives events
  (`ReceiverOrder`), a threshold that is not a number (`ThresholdInRangeIffNumber`),
  the reload hash (`HashInputExact`, `NulHidesAChange`), the debounce
  (`CoveredIffWatched`, `ActedOnIffLeaderTicksFirst`), window times
  (`StartNeedsTwoDigits`), and the event file
  (`ReadBackExactly`, `UnreadEventsRepeatIds`).
- Where comment and code differ, the model follows the code. The breaker is
  described as tripping when a threshold is exceeded and trips when it is reached,
  so one action fewer passes; the blast radius of "this hour" is a window that
  starts with the first action after the last one ended, so an hour laid across two
  of them may see twice the maximum (`BlastBoundIsMet`); a dry run ignores that a
  change is housekeeping, and so may name a guard that will not stop it
  (`DryRunOfHousekeeping`); and where leadership moves while a change waits, the change can be
  lost, although every controller queues it.

## Model

| member | source | states |
|---|---|---|
| `ApprovalFixes.DuplicateIsExact` | internal/kube/approvals.go:176-187 | For changes built from well-named specs, the queue's text comparison equates two of them if and only if they agree on everything their action reads, the Job name of a run-now apart |
| `ApprovalFixes.DuplicateSameEffect` | internal/kube/approval_fixes.go:57-80 | A proposal folded into one already queued asks for the same effect on the cluster, so approving the older one applies the newer one's change; run-now aside, whose Job is named after the moment of asking |
| `ApprovalEffects.BuiltDoesAsAsked` | internal/kube/approval_fixes.go:57-285 | For every known action and any cluster: the change built from a spec is accepted exactly where what it needs is there; then each field the spec names reads what the spec asks for (maximum, unpaused, size, pods gone, Job of the current template, CPU limit of one container) and no other field of the cluster has moved; a refused one moves nothing, or, deleting pods, only removes pods it names |
| `ApprovalEffects.ApiServer.DeletePods` | internal/kube/approval_fixes.go:159-168 | In place: the pods are deleted in turn up to the first that fails, those before it gone |
| `ApprovalEffects.ApiServer.Apply` | internal/kube/approval_fixes.go:101-108 | In place: the cluster and the answer are those of the change performed; a change without an effect does nothing |
| `ApprovalProposals.ProposalsAreQueueable` | internal/kube/approval_fixes.go:82-98 | Whatever a finding proposes, for any object and numbers, can be stored and built again, for the finding's reason and workload, and does what was proposed: the unknown action that stops the program cannot arise |
| `ApprovalProposals.LimitsAreQueueable` | internal/kube/approval_fixes.go:217-256 | So can a CPU limit for whatever workload owns a pod: no owner yields a kind that cannot be built |
| `ApprovalProposals.DeploymentOfReplicaSet` | internal/kube/approval_fixes.go:223-239 | A pod of a ReplicaSet named after a Deployment and its template hash is traced back to that Deployment |
| `ApprovalProposals.JobNameFits` | internal/kube/approval_fixes.go:171-179 | The name of a manual Job fits the 63 characters of a label while the clock has ten digits; and for names cut to the limit exactly as long |
| `ApprovalQueue.BuildFixIsFaithful` | internal/kube/approval_fixes.go:57-80 | A change rebuilt from a stored spec carries that spec, for every spec that can be rebuilt (what such a change does to the cluster is BuiltDoesAsAsked) |
| `ApprovalQueue.StoreRoundTrip` | internal/kube/approval_store.go:139-162 | Storing what was loaded changes nothing, unreadable changes included; a new proposal comes back from the store as the very change it was |
| `ApprovalQueue.StoredStep` | internal/kube/approval_store.go:168-186 | A step on the rebuilt items, stored again, is the step on the stored records, and is written back only when its guards hold |
| `ApprovalQueue.StepMoves` | internal/kube/approvals.go:222-241 | What one step may do to a stored approval: its change, times and summary never move; it is approved only by a listed approver before it expires, rejected only before, expired only after; only a proposal drops one, and then a decided or lapsed one |
| `ApprovalQueue.StaysDecided` | internal/kube/approvals.go:224-236 | A decided approval keeps its state and who decided it for as long as it is stored |
| `ApprovalQueue.StepConsistent` | internal/kube/approvals.go:108-174 | Every step keeps the stored queue within 200 items, no two of them the same pending change, results on approved ones only |
| `ApprovalQueue.NewIsDifferent` | internal/kube/approvals.go:153-160 | What a proposal adds is a different change from everything still pending, whichever way round they are compared |
| `ApprovalWindow.ProposalAnswer` | internal/kube/approvals.go:149-169 | A proposal is taken in if and only if the same change does not already wait in the stored queue and fewer than 200 approvals do; it is called a duplicate, or the queue full, exactly otherwise: decided and lapsed approvals never keep one out |
| `ApprovalWindow.ApprovalAnswer` | internal/kube/approvals.go:227-242 | When asking for an approval is answered unknown, not an approver, decided already and how, or unreadable: each if and only if the stored queue says so, in this order |
| `ApprovalWindow.RejectionAnswer` | internal/kube/approvals.go:289-300 | Likewise of a rejection, which needs no approver and no readable change |
| `ApprovalWindow.QueuedCanBeApproved` | internal/kube/approvals.go:165 | A change just queued is stored as it was proposed, and from then can be approved by exactly the listed approvers, and rejected, at exactly the times before its ttl has passed |
| `ApprovalWindow.OpenForItsTtl` | internal/kube/approvals.go:149-241 | Over every run and after every later commit: what a commit proposed is stored unchanged and can be approved, by exactly the listed approvers, at exactly the times within its ttl, if and only if no commit in between decided it or was made once its ttl had passed |
| `ApprovalStore.ConfigMapStore.Write` | internal/kube/approval_store.go:90-127 | Compare and swap: a write reported saved is the very next version after the one read; one in conflict came after another writer's; a failed one may have landed |
| `ApprovalStore.ConfigMapStore.Read` | internal/kube/approval_store.go:65-88 | A list read is the contents of some version no older than the call; or the read fails |
| `ApprovalStore.Approvals.ExpireLocked` | internal/kube/approvals.go:107-114 | In place, exactly the pending items whose expiry has come become expired, nothing else moves |
| `ApprovalStore.Approvals.PruneLocked` | internal/kube/approvals.go:116-135 | Nothing is dropped while there is room; otherwise decided items go, those proposed longest ago first, and no more than make room; never a pending one |
| `ApprovalStore.Approvals.ProposeStep` | internal/kube/approvals.go:149-169 | The queue after a proposal, in memory, is the step's: the pending duplicate, a full queue, or the new item |
| `ApprovalStore.Approvals.ApproveStep` | internal/kube/approvals.go:227-242 | Guards in the code's order (unknown, approver, expiry, decided, unreadable), then approved by the user; the change handed back is the one loaded |
| `ApprovalStore.Approvals.RejectStep` | internal/kube/approvals.go:289-300 | Only a pending, unexpired item is rejected |
| `ApprovalStore.Approvals.RecordStep` | internal/kube/approvals.go:264-274 | The gate's outcome is stored on the item and nothing else changes |
| `ApprovalStore.Approvals.Replace` | internal/kube/approval_store.go:188-201 | Memory becomes the stored list rebuilt, a later record of an id replacing an earlier one |
| `ApprovalStore.Approvals.RecordsLocked` | internal/kube/approval_store.go:203-210 | The list written holds each item once, in any order, and reads back as the stored form of memory |
| `ApprovalStore.Approvals.UpdateQueue` | internal/kube/approval_store.go:164-186 | Through at most five tries with others writing in between: an answer is one the stored queue gives at a version read during the call; a change reported stored is the step run on that version's queue, stored as the next version; and it gives up if and only if the store failed it once or it met with five conflicts |
| `ApprovalStore.Approvals.ApproveFix` | internal/kube/approvals.go:217-260 | A change goes to the gate only after its approval by a listed approver was written, rebuilt from the stored spec and marked with that user; if it reaches the cluster it does there what the stored spec asks and nothing else; otherwise nothing is sent and the cluster is as it was |
| `ApprovalStore.PrefixIsChoice` | internal/kube/approvals.go:127-133 | Deleting along the list sorted by age until there is room drops exactly what pruning may drop |
| `ApprovalProtocol.Linearizable` | internal/kube/approval_store.go:168-201 | Over every interleaving of calls of any number of controllers, with conflicts, failed and lost writes and crashes, the stored queue is the committed steps run one at a time in commit order; each commit, answered or not, is a step its call asked for, and had asked for by then; and every answer is the one its step gives on its own at a point inside its call |
| `ApprovalOnce.CommittedOnce` | internal/kube/approval_store.go:164-186 | Over every run in which a conflict means that the write did not land, no call commits one operation twice, whatever fails or goes unanswered |
| `ApprovalOnce.LocksAreHeld` | internal/kube/approvals.go:143-173 | Over every run, whatever fails or crashes: a controller's lock that is taken is held by a call of that controller which is loading or writing, and by one such call only, so no controller is left locked |
| `ApprovalProtocol.AtMostOnce` | internal/kube/approvals.go:217-260 | Over every run an approval id goes to the gate at most once, only after a stored approval by a listed approver who acted before it expired, with the change rebuilt from the stored spec, and never when any earlier commit had decided it |
| `ApprovalWindow.AppliedAsProposed` | internal/kube/approvals.go:217-260 | Over every run: whatever goes through the gate does to any cluster exactly what the stored spec asks; and if it was proposed in the run it is that very change, approved before its ttl had passed with nothing having closed it in between |
| `ApprovalProtocol.StaysConsistent` | internal/kube/approvals.go:116-174 | After every commit of every run the stored queue has at most 200 items, no two the same pending change, results on approved ones only |
| `ApprovalProtocol.DecisionsAreFinal` | internal/kube/approvals.go:282-308 | Once a commit leaves an approval decided, every later commit that still has it has it decided the same way by the same person |
| `ApprovalProtocol.OneApproval` | internal/kube/approvals.go:234-241 | No two commits of a run approve the same id |
| `ApprovalProtocol.PendingUntil` | internal/kube/approvals.go:233-236 | What a commit approves was never stored as decided before |
| `ApprovalProtocol.InvLanded` | internal/kube/approval_store.go:108-122 | A write that lands, whatever its reply, keeps the invariant of the protocol: its base version was current, so the copy it changed was the stored queue |
| `Gate.Deps.ApplyMutation` | internal/kube/gate.go:61-124 | One call with nothing else running takes the atomic steps of the protocol in order, spends exactly what they spend, has their outcome, is sent exactly when it ends as applied or failed, and is audited once unless it is skipped |
| `Gate.Deps.CheckGuardrails` | internal/kube/guardrails.go:9-37 | Quiet hours, blast radius, policy, breaker, in this order; a check that refuses leaves what comes after it unspent |
| `Gate.Deps.SendChange` | internal/kube/gate.go:107-124 | After a grant the change is sent once; the policy's budget is charged only when it was applied |
| `Gate.Deps.CheckPolicy` | internal/kube/policycheck.go:46-66 | Approval, restarts, then the hourly budget, which fails closed without a tracker and is consulted only when nothing else refuses |
| `GateAnswers.ForbiddenIsNeverSent` | internal/kube/policycheck.go:46-66 | Over every run, whatever the trackers hold and the clock says: no change is ever sent that its policy forbids (approval required, or restarts off for a pod deletion), that is outside the fix scope, or whose mode is not fix; a run has no attempts if it has no change that may be sent |
| `GateAnswers.ForbiddenAlone` | internal/kube/gate.go:65-124 | The same of a single call on its own, for any trackers and any readings: it never gets as far as being sent |
| `GateAnswers.AnswersAreDue` | internal/kube/guardrails.go:11-37 | In every state of every run each change stands only where its own mode, scope and policy let it, and a guard named by a refusal or a dry run is one that may refuse that change: the right policy clause, no blast radius or breaker for housekeeping |
| `GateAnswers.SilentPolicyIsNone` | internal/kube/policycheck.go:46-58 | A policy that neither forbids a change nor limits how often changes nothing: every run goes, in trackers, answers and logs, as it goes where such policies select no workload |
| `GateAnswers.PolicyLetsIff` | internal/kube/policycheck.go:46-66 | The policy lets a change through if and only if it does not forbid it and, where it limits how often, a budget is kept and has room in the hour |
| `GateAnswers.AttemptsAreChanges` | internal/kube/gate.go:111-124 | In every run each attempt sent is the one attempt of one change |
| `GateAnswers.AcceptanceDecides` | internal/kube/gate.go:111-123 | Over every run a change ends as applied only if the API server accepted it when it was sent, and as failed only if it refused |
| `GateAnswers.AuditTells` | internal/kube/gate.go:76-122 | Each result in the audit trail stands for one kind of outcome |
| `Gate.Deps.SimulateAction` | internal/kube/dryrun.go:63-112 | The dry run asks the same questions without spending, ignores housekeeping, and logs one entry in a bounded list |
| `GatePreviews.DryRunForetellsTheGate` | internal/kube/dryrun.go:63-82 | A fix asked for at the moment of its dry run and accepted by the API server is stopped by exactly the guard the dry run names; where it names none, it is applied, unless this very attempt trips the breaker, or else the limiter is used up |
| `GatePreviews.DryRunOfHousekeeping` | internal/kube/dryrun.go:63-82 | A dry run of housekeeping is right of every guard but the blast radius and the breaker, to which housekeeping is not held: where it names one of these the gate goes on as if it had not |
| `Gate.Deps.GatePreview` | internal/kube/gate_preview.go:18-83 | Every line of the preview in order, for the trackers as found: mode, fix scope, quiet hours, what AllowAction and Allow would say, the tripped workloads of the namespace, the limiting policies; a tracker not configured has no line but a missing limiter fails; and the trackers are left as the read-only steps leave them |
| `GatePreviews.PreviewForetellsTheGate` | internal/kube/gate_preview.go:21-56 | For any policies of the namespace, the one that selects the workload among them or none: a fix asked for at the moment of the preview, and accepted by the API server, is applied if and only if every line before the one about the policies passes and that policy and the breaker, which the preview does not spend, let it through |
| `GatePreviews.PolicyLineIsExactIff` | internal/kube/gate_preview.go:58-83 | The line about the policies never passes a change that wants approval, and it is right about this change if and only if it does not fail for the sake of another policy |
| `GatePreviews.PolicyLineRightOfAllIff` | internal/kube/gate_preview.go:58-83 | It is right about every change that one of the policies, or none, may select if and only if no policy of the namespace wants approval |
| `GatePreviews.BreakerLineTells` | internal/kube/gate_preview.go:44-56 | The breaker's line of the preview names a workload of the namespace if and only if it is tripped |
| `GatePreviews.RateLineTells` | internal/kube/gate_preview.go:36-43 | The number the limiter's line shows as left is exactly how many more requests at that moment would be granted |
| `GateAnswers.LimitingAreNotSilent` | internal/kube/gate_preview.go:58-83 | The policies listed as limiting are exactly those that would refuse or count some kind of change |
| `GateRuns.GateBounds` | internal/kube/guardrails.go:15-33 | Over every interleaving, with steps on different trackers free to overlap in time: in any window, at most twice the namespaces of the blast radius, threshold - 1 actions on a workload, and each limiter's maximum of grants |
| `GateRuns.GrantsAreUsedOnce` | internal/kube/gate.go:94-111 | At every moment of every run each grant of a limiter has been used by exactly one attempt or is still held by the call that got it |
| `GateRuns.AttemptBound` | internal/kube/gate.go:94-111 | In any closed window no more attempts, by the clock of their grants, than the limiter's maximum; fixes and housekeeping each on their own limiter |
| `GateRuns.SentBound` | internal/kube/gate.go:94-111 | By the clock of sending, the maximum is exceeded by no more than the attempts granted before the window and held up into it |
| `GateRuns.SentWithinHoldUp` | internal/kube/gate.go:94-111 | Where no handler is held up longer than d between its grant and its sending, no closed interval shorter than the window by d sees more sent than the maximum |
| `GateLimits.SendingKeepsTheRate` | internal/kube/gate.go:94-111 | For every limiter and every d: over all runs that hold no attempt up longer than d, the maximum holds by the clock of sending if and only if d is 0 or there is nothing to exceed |
| `GateRuns.PolicyBudgetBound` | internal/kube/gate.go:94-119 | With at most k counted calls in flight, an hour holds at most limit - 1 + k recorded actions of a policy, also where a clock reading is overtaken on its way to the budget's lock |
| `GateLimits.HourlyLimitIffAlone` | internal/kube/policycheck.go:56-62 | For every limit: over all runs with at most k counted calls in flight, no hour exceeds the limit if and only if k is at most 1 |
| `GateLimits.HourlyBoundIsMet` | internal/kube/policycheck.go:56-62 | For every limit and k a run with at most k in flight reaches limit - 1 + k in one hour: the bound is exact |
| `GateRuns.NonInterference` | internal/kube/dryrun.go:63-82 | Inserting any dry runs, previews and suggestions anywhere into a run leaves every fix-mode call exactly where it would stand without them, as long as none of them consults the budget of an hourly policy with a later reading than a fix that comes to the same budget after it |
| `GateRuns.HousekeepingIsolation` | internal/kube/guardrails.go:19-29 | With no hourly policy over it, any housekeeping can be inserted too, on the same condition, without changing where a fix stands |
| `GateRuns.NonInterferenceAcrossPolicies` | internal/kube/dryrun.go:63-82 | Over every run at all: where no call left out is under the hourly policy of a call that is kept, every kept call stands where it would without them |
| `GateOvertaking.OutcomesKeptIffNotOvertaken` | internal/kube/policycheck.go:60-62 | For every limit, with housekeeping kept or left out, and every d: over all runs in which calls left out overtake kept ones by at most d on the way to a budget they share, every kept call stands where it would if and only if d is 0 |
| `GateRuns.HousekeepingSpendsItsOwn` | internal/kube/guardrails.go:19-29 | Any number of housekeeping steps leaves the fix limiter, the blast radius and the breaker as they were |
| `CircuitBreakers.CircuitBreaker.RecordAndCheck` | internal/ratelimit/circuit.go:36-75 | In place: the state and answer of one attempt; the attempt that reaches the threshold trips the breaker and is refused |
| `CircuitBreakers.CircuitBreaker.IsTripped` | internal/ratelimit/circuit.go:77-92 | The answer, and the expired trip forgotten as it answers |
| `CircuitBreakers.BreakerBound` | internal/ratelimit/circuit.go:38-92 | For each workload, in any half-open interval one window long, at most threshold - 1 attempts pass, for every interleaving with queries |
| `CircuitBreakers.BreakerBoundIsMet` | internal/ratelimit/circuit.go:66-74 | The bound is tight: threshold - 1 do pass at one instant, and the next does not |
| `CircuitBreakers.KeyExact` | internal/ratelimit/circuit.go:38-42 | Namespaces hold no slash, so each workload of each namespace has a breaker of its own |
| `ActionLimiters.ActionLimiter.Allow` | internal/ratelimit/ratelimit.go:97-108 | In place: pruned, then granted and stamped, or refused |
| `ActionLimiters.ActionLimiter.Prune` | internal/ratelimit/ratelimit.go:126-133 | The loop drops exactly the leading events before the cutoff |
| `ActionLimiters.LimiterBound` | internal/ratelimit/ratelimit.go:99-133 | For every interleaving with queries, at most max grants in any closed interval one window long |
| `Deduplicators.Deduplicator.CheckFor` | internal/ratelimit/ratelimit.go:31-43 | In place: refused inside the key's window, otherwise passed and a new window begun |
| `Deduplicators.Deduplicator.Sweep` | internal/ratelimit/ratelimit.go:60-78 | The sweep forgets exactly the keys whose windows are over |
| `Deduplicators.OncePerWindow` | internal/ratelimit/ratelimit.go:34-43 | For each key a check passes no sooner than the window of the pass before it is over, for every interleaving with other keys and sweeps |
| `Deduplicators.PassesExactly` | internal/ratelimit/ratelimit.go:34-43 | After any run a check passes if and only if the window of the last pass of that key, if there was one, is over |
| `BlastRadii.BlastRadiusTracker.AllowAction` | internal/kube/auditlog.go:143-166 | In place: the window reset when it has passed, then allowed for a namespace already counted or while there is room |
| `BlastRadii.BlastRadiusTracker.WouldAllow` | internal/kube/auditlog.go:168-180 | Exactly what AllowAction would answer in the same state, and nothing changes |
| `BlastRadii.BlastBound` | internal/kube/auditlog.go:145-166 | At most the maximum of distinct namespaces in each epoch of the tumbling window, hence at most twice that in any half-open interval one window long |
| `BlastRadii.AllowedExactly` | internal/kube/auditlog.go:145-166 | After any run a namespace is allowed if and only if the window is over and any may be acted on, or it was acted on in this window, or there is room for one more; a window begins at the second clock reading of the call that found the last one over |
| `BlastCrowds.BlastBoundIsMet` | internal/kube/auditlog.go:145-166 | For any namespaces and any window of at least two ticks, twice the maximum is reached within one window: the bound is exact |
| `QuietHoursWindows.QuietHours.IsQuiet` | internal/kube/auditlog.go:216-236 | The loop is quiet exactly when some window holds the time, compared as text |
| `QuietHoursWindows.QuietHours.SplitBy` | internal/kube/auditlog.go:253-264 | The loop cuts the text at every separator |
| `QuietHoursWindows.QuietAroundTheClock` | internal/kube/auditlog.go:222-234 | Comparing HH:MM as text is right: a window, overnight or not, is quiet from its start for as long as the clock takes to come round to its end |
| `QuietHoursWindows.WindowsRoundTrip` | internal/kube/auditlog.go:200-213 | Windows written as HH:MM-HH:MM with commas are read back as written |
| `QuietHoursWindows.OneDashIsAWindow` | internal/kube/auditlog.go:200-213 | A part of the text is a window if and only if it holds exactly one dash; other parts are left out |
| `QuietHoursWindows.PaddingIsIgnored` | internal/kube/auditlog.go:266-274 | Spaces and tabs around a window make no difference |
| `QuietHoursWindows.StartNeedsTwoDigits` | internal/kube/auditlog.go:224-232 | For every start before ten and every end: the window is quiet as meant at every minute if and only if the hour of its start is written with two digits |
| `PolicyBudgets.PolicyBudget.Used` | internal/kube/policycheck.go:88-101 | In place: the hits older than an hour are forgotten and the rest counted |
| `PolicyBudgets.UsedSound` | internal/kube/policycheck.go:90-101 | Whatever has been forgotten, the count is the number of recorded actions of the last hour when the reading is the latest, and never less than that of the hour before the latest |
| `PolicyBudgets.OvertakenCountsFewer` | internal/kube/policycheck.go:90-101 | A reading overtaken by a later one counts fewer by exactly the actions between the two cutoffs, so the answers agree if and only if there is none |
| `PolicyScope.FixScope` | internal/policy/scope.go:120-130 | The namespaces listed are exactly the fixable ones, in order |
| `PolicyScope.ScopeChoiceRoundTrip` | internal/policy/scope.go:162-168 | A choice written to the scope ConfigMap is read back as the same set of names, and no choice as none |
| `PolicyScope.HotReloader.Reload` | internal/policy/reload.go:114-132 | A ConfigMap replaces the snapshot only when the result validates; the scope choice and the ceiling are kept |
| `PolicyConfig.ConfigRoundTrip` | internal/policy/reload.go:134-189 | Whatever policy was in force, the ten keys written from another policy set every reloadable setting to that other's (mode, threshold, step, budget, replicas, cooldowns, both scopes, all namespaces in any of its spellings) and leave the ceiling and the dashboard choice alone |
| `PolicyConfig.UnreadKeepsAll` | internal/policy/reload.go:134-189 | What the ConfigMap leaves out, leaves empty, or says so that it cannot be parsed stays as it was |
| `PolicyConfig.OldListStandsIn` | internal/policy/reload.go:192-203 | The deprecated list stands in for whichever scope has no key of its own, and a key that is there wins even when empty |
| `PolicyConfig.ReloadedIffInRange` | internal/policy/reload.go:114-125 | After any run of reloads and choices a reload is taken in if and only if what it comes to is in the documented ranges, but for a threshold that is not a number; otherwise nothing changes |
| `PolicyScope.HotReloader.SetScope` | internal/policy/reload.go:109-112 | A choice replaces only the choice |
| `PolicyScope.UpdatesCommute` | internal/policy/reload.go:44-49 | Over every interleaving, the snapshot is that of the reloads alone with the last choice: reloads and choices commute |
| `PolicyScope.ScopeSafety` | internal/policy/scope.go:84-118 | In every reachable snapshot: it validates, the ceiling is the one begun with, and fixable implies inside the ceiling implies watched |
| `PolicyScope.EmptyUntilRead` | internal/policy/reload.go:37-42 | Once the scope is watched and until a choice is read, nothing is fixable |
| `PolicyScope.ThresholdInRangeIffNumber` | internal/policy/reload.go:114-132 | A snapshot that validates has its threshold in range if and only if the threshold is a number |
| `PolicyScope.NaNIsAccepted` | internal/policy/reload.go:114-132 | A ConfigMap that gives NaN as the threshold is accepted |
| `Forwarders.Forwarder.Record` | internal/events/forwarder.go:71-87 | In place: the next number, and a full buffer drops its oldest first |
| `Forwarders.FirstStampStays` | internal/events/forwarder.go:72-87 | The time and node an event is first stamped with stay, however many agents pass it on, and nothing else of it is touched |
| `Forwarders.Forwarder.Flush` | internal/events/forwarder.go:96-141 | With others recording during the flight: on success exactly what is still there of the batch is removed, on failure nothing |
| `Forwarders.Forwarder.Drain` | internal/events/forwarder.go:182-195 | What was accepted followed by what is left is what was accepted before followed by what was left; when no send fails nothing is left |
| `Forwarders.BatchThenRest` | internal/events/forwarder.go:131-138 | Trimming by the batch's last number leaves exactly what follows the batch |
| `ForwarderRuns.Conservation` | internal/events/forwarder.go:72-141 | Under every interleaving of records with a flush in flight, the buffer is the tail of all recorded events under consecutive numbers, and dropped, trimmed and buffered add up to all recorded |
| `ForwarderRuns.TrimsOnlyAccepted` | internal/events/forwarder.go:131-138 | Every entry a flush trims was in the batch just accepted |
| `ForwarderRuns.ReceiverOrder` | internal/events/forwarder.go:98-141 | For one target, with failures, repeats and batches that arrive long after they were given up on: each event under its own number; a number missing below the highest was dropped or was done with by a flush not posted to this target; and first arrivals rise if and only if nothing given up on arrived stale |
| `ForwarderRuns.StaleWasGivenUp` | internal/events/forwarder.go:71-141 | A number that would arrive stale was dropped from a full buffer, or done with by a flush not posted to this target |
| `ForwarderRuns.OneTargetMissesOnlyDropped` | internal/events/forwarder.go:115-130 | A target every successful flush is posted to misses only what was dropped |
| `Events.Recorder.Push` | internal/events/recorder.go:179-184 | In place: the shifted ring holds the last maxLen of what it held and the new event |
| `Events.Recorder.Record` | internal/events/recorder.go:170-192 | The event gets the next id and a time, the ring keeps the tail, and the file gets the line, part of it, or nothing; a line that follows a part is joined to it |
| `Events.Recorder.LoadFromFile` | internal/events/recorder.go:118-162 | The ring holds the tail of the lines that parse, and the next id is past them all |
| `Events.Recorder.Recent` | internal/events/recorder.go:194-207 | The latest n events, newest first; all of them when n is not that many |
| `Events.ReadBackExactly` | internal/events/recorder.go:128-192 | Over every run of records, failed and broken writes and restarts: what can be read of the file at the end are, in order, exactly the events written of which the last append before to reach the file had not broken off, and at most one more that lacks only its newline |
| `Events.RingIsTail` | internal/events/recorder.go:120-192 | Over every run of records, failed and broken writes and restarts, however much they read, the ring is the last maxLen of everything loaded and recorded |
| `Events.IdsRiseWhenAllIsRead` | internal/events/recorder.go:144-175 | As long as each restart read all that parses, ids rise strictly in memory and on disk and the next is past them all, whatever writes failed |
| `Events.ReloadRestores` | internal/events/recorder.go:120-162 | While writes succeed, reading the file back at any point restores the same ring and the same next id |
| `Events.UnreadEventsRepeatIds` | internal/events/recorder.go:144-155 | After a read that stopped early, the next event written keeps the file's ids rising if and only if nothing that parses was left unread, or the event is lost to a line that broke off |
| `Replicate.Tee.Record` | internal/events/replicate.go:27-32 | Recorded locally always, and queued for the other controllers exactly while this one leads, without the local id |
| `Replicate.Backfill` | internal/events/replicate.go:47-74 | An empty log becomes the first non-empty answer of a peer, oldest first, renumbered; any other log stays as it is |
| `Replicate.BackfillReproduces` | internal/events/replicate.go:65-70 | Backfilling a peer's whole log reproduces the peer's order up to ids, as far as the ring holds, under rising ids |
| `ReloadRefs.ChangedKeys` | internal/kube/reload_refs.go:161-177 | Exactly the keys in which the two versions differ, sorted |
| `ReloadRefs.DecideAffects` | internal/kube/reload_refs.go:179-194 | The loop says yes exactly when some changed key is used |
| `ReloadRefs.AffectsIffUsedDiffers` | internal/kube/reload_refs.go:163-194 | A change affects a template if and only if what the template sees of the object is different |
| `ReloadRefs.UsedStream` | internal/kube/reload_refs.go:196-215 | The text hashed is a function of the used keys and values alone, in key order, whatever order the map gives them |
| `ReloadRefs.UnaffectedKeepsHash` | internal/kube/reload_refs.go:196-215 | An unaffected template keeps its hash input |
| `ReloadRefs.HashInputExact` | internal/kube/reload_refs.go:206-213 | Where no value holds a NUL, two versions have the same hash input if and only if the template sees the same of both |
| `ReloadRefs.NulHidesAChange` | internal/kube/reload_refs.go:208-213 | For any two keys and any two values: the object with both, and the object with one key whose value runs on past a NUL into the other, have the same hash input |
| `ReloadRefs.UnseenChangeNeverRestarts` | internal/kube/reload_policy.go:72-87 | A workload that does not name the object is never restarted for a change it does not see |
| `ReloadRefs.MoreKeysStillReload` | internal/kube/reload_policy.go:72-87 | More changed keys never turn a restart off |
| `ReloadRules.WorkloadRules` | internal/kube/reload_policy.go:39-62 | The loop over the four lists gathers exactly what the annotations say: kinds turned off, objects named, search, and when to restart |
| `ReloadRules.RulesRoundTrip` | internal/kube/reload_policy.go:9-62 | Rules written as annotations, the lists under this program's names or under Stakater Reloader's, are read back as they were |
| `ReloadRules.ReloadsExactly` | internal/kube/reload_policy.go:72-87 | A workload is restarted for a change if and only if the object did change, neither side opts out, and it asks for the object by name or else sees different content of it, finds it marked where it searches, and restarts always or needs to |
| `ReloadRules.AnnotationsDecide` | internal/kube/reload_policy.go:44-78 | Read off the annotations: an opt-out of the workload, of the kind or of the object always wins; without one, any change of a listed object restarts it |
| `ReloadRules.SearchNeedsMatch` | internal/kube/reload_policy.go:79-81 | A workload that searches is not restarted for an object it does not list and that is not marked to match |
| `ReloadRefs.DebounceLosesNothing` | internal/kube/reload.go:132-154 | After any series of updates of a watched object the keys that wait cover every key that differs between first and last version and the values that wait are the last; nothing waits only if the two are equal |
| `ReloadRefs.DebouncedStillReloads` | internal/kube/reload.go:223-234 | A template that would be restarted for the net change is restarted for what waits |
| `ReloadRefs.DueAfterLastTouch` | internal/kube/reload.go:140-152 | The change falls due one window after the last update that touched a key, with the object's annotations and values of that update, and remembers when the first came |
| `ReloadRefs.CoveredIffWatched` | internal/kube/reload.go:132-154 | For every pattern of watched and unwatched updates: every series that follows it is covered by what waits if and only if all of them are watched |
| `ReloadLeaders.ActedOnIffLeaderTicksFirst` | internal/kube/reload.go:120-171 | A change that every controller queued is acted on if and only if some controller leads at its own first tick from the due time on, and then once by each that does, on keys that cover the net change and on the last values; a leader that stops before that tick loses it |
| `ReloadLeaders.EachActsAtFirstDue` | internal/kube/reload.go:156-171 | Whatever the others do, a controller acts once on what waits if it leads at its first tick from the due time on, and otherwise drops it there |
| `ReloadWaves.WaveSafety` | internal/kube/reload.go:286-390 | In every state a wave can reach: targets are those with a first outcome followed by those to do, at most one restart that is not a CronJob's is unverified, and nothing is restarted after a restart fails verification |
| `ReloadWaves.AdvanceProgresses` | internal/kube/reload.go:288-323 | Each advance waits with the wave untouched or lowers (workloads to do, in flight), or finishes; afterwards the wave is done or waits for one workload |
| `ReloadWaves.BlockedStayBlocked` | internal/kube/reload.go:311-354 | Whatever waves start and advance, a version that failed verification on a workload is never again sent to the gate for it |
| `ReloadWaves.BlockKeyExact` | internal/kube/reload.go:408-410 | For names without a slash, a blocked key names one version of one workload of one namespace |
| `ReloadVerdicts.EveryTurnJudges` | internal/kube/reload.go:286-331 | One turn on a wave that waits: a Deployment seen past its deadline, a Rollout seen degraded, or anything else not ready after ten minutes ends the wave as failed, with exactly its version blocked and all the rest skipped; a workload seen ready is recorded healthy; otherwise nothing changes |
| `ReloadVerdicts.OutcomesAreEarned` | internal/kube/reload.go:286-309 | Over the whole life of a wave: a workload is recorded healthy only after it was read as ready (and, a Deployment, not past its deadline) while the wave waited for it, and as failed after its restart only after it was read as hopeless then |
| `ReloadVerdicts.WaitsWhileUndecided` | internal/kube/reload.go:422-476 | Over any further turns the wave waits for its workload, untouched, if and only if every reading is undecided; once one is not, the wave never comes back to it |
| `ReloadVerdicts.DeploymentsWaitWithoutEnd` | internal/kube/reload.go:433-444 | A Deployment that can be read, is not up and is not past its own deadline is waited for without end |
| `ReloadVerdicts.OthersWaitTenMinutes` | internal/kube/reload.go:422-476 | A StatefulSet, DaemonSet or Rollout that is never seen ready, and anything that cannot be read, is waited for exactly until a turn comes more than ten minutes after its restart |
| `ReloadVerdicts.InFlightSinceRestart` | internal/kube/reload.go:385-390 | The ten minutes are counted from an applied restart of an earlier turn, and the version a failure would block is the one that restart sent |
| `ReloadVerdicts.OnlySentVersionsStall` | internal/kube/reload.go:311-390 | Over every run of waves a version is blocked for a workload only after that very version was sent to it |
| `ReloadVerdicts.FatesTellAnswers` | internal/kube/reload.go:378-384 | The wave's record tells the gate's answers apart: restarted means applied, failed means a refused change |
| `ReloadVerdicts.NamedVersionIsExact` | internal/kube/reload.go:339-344 | A workload that only names the object has a version of its own for every content of it: all keys are hashed |
| `ReloadWaves.SoundRestart` | internal/kube/reload.go:333-390 | Trying one workload keeps the wave sound and never stops it, whatever the gate answers |
| `ReloadWaves.SoundFailing` | internal/kube/reload.go:311-324 | Failing a wave records the failure, skips every workload left and keeps the wave sound |
| `Reloaders.Reloader.QueueChange` | internal/kube/reload.go:132-154 | In place: what waits for that object is merged and keeps its place and object, nothing else moves |
| `Reloaders.PendingKeyExact` | internal/kube/reload.go:138-149 | Namespaces hold no slash, so what waits is kept apart object by object |
| `Reloaders.Reloader.TakeDue` | internal/kube/reload.go:160-168 | Exactly the changes whose window has passed are taken off the list, each once |
| `Reloaders.Reloader.AffectedWorkloads` | internal/kube/reload.go:223-234 | Exactly the listed workloads the change restarts, once each, by name |
| `Reloaders.Reloader.StartWave` | internal/kube/reload.go:193-220 | A wave is started if and only if the change restarts a listed workload, for its last values and over exactly those workloads, once each, by name |
| `Reloaders.Reloader.RestartForReload` | internal/kube/reload.go:333-390 | One workload: unreadable, blocked, up to date, or through the gate, in this order; the wave waits only for an applied restart that is not a CronJob's |
| `Reloaders.Reloader.FailWave` | internal/kube/reload.go:311-331 | In place: the version blocked, the failure and the skipped rest recorded, the wave over |
| `Reloaders.Reloader.AdvanceWave` | internal/kube/reload.go:286-309 | In place: one turn of the wave, on the health seen and the clock read in it: wait, fail, or go on to the next workloads; the blocked set only grows |
| `Reloaders.Reloader.ReloadTick` | internal/kube/reload.go:156-191 | Every controller drops the changes that are due, each once; the leader alone starts one wave for each that restarts anything in its namespace, the oldest change first, gives every wave, old and new, exactly one turn in order on the books as the one before left them, and keeps in order those not finished, each waiting for a workload |
| `FixTrackers.FixTracker.VerifyFixes` | internal/kube/fixtracker.go:78-149 | With actions recorded during the pass: what is still open, in order, followed by all that arrived; fixed and failed extended by exactly the rest |
| `FixTrackers.FixTracker.Examine` | internal/kube/fixtracker.go:93-141 | One record: given up, too early, or a sample taken and the healthy streak kept, begun or ended |
| `FixTrackers.NothingLost` | internal/kube/fixtracker.go:64-149 | Over every run each action recorded is in exactly one of pending, fixed so far and failed so far, as often as it was recorded |
| `FixTrackers.RecordsSayWhereTheyAre` | internal/kube/fixtracker.go:93-141 | Over every run each record carries the status of the list it is in: pending, fixed, or not fixed |
| `FixTrackers.PassPartitions` | internal/kube/fixtracker.go:91-142 | A pass sorts what it saw into three, losing and doubling nothing |
| `FixTrackers.FixedIffHealthyForAMinute` | internal/kube/fixtracker.go:106-126 | A record becomes fixed at a check if and only if, within a quarter of an hour of the action, every sample over at least the last minute was healthy, the first taken no sooner than half a minute after it |
| `FixTrackers.PassDropsTheOld` | internal/kube/fixtracker.go:95-104 | Nothing a pass keeps, or calls fixed, is older than a quarter of an hour |
| `NetProbes.EveryServiceIsDialled` | internal/kube/netprobe.go:177-198 | From any offset and for any list of n, every Service is dialled within as many passes as n has samples of twenty |
| `NetProbes.NoneTwiceInAPass` | internal/kube/netprobe.go:179-180 | No Service is dialled twice in one pass |
| `NetProbes.ToldAtSecondFailure` | internal/kube/netprobe.go:85-91 | A failure is reported exactly when it is the second in a row of its key, whatever other keys do |
| `NetProbes.NetProber.ProbeServices` | internal/kube/netprobe.go:174-198 | In place: the dials of one pass, the streaks and reports they make, and the next offset |

## Left out

- The Kubernetes, Slack, mail, Git, ticket, LLM, Prometheus and S3 clients, HTTP handlers, the dashboard and the terminal: they are input and output around this core.
- Detectors, redaction, cost and learning: straight-line checks and arithmetic.
- The scaler: clamping of one value, and its two bounds may cross after a policy lowers one of them.
- Leader election: `leading` is a free input.
- The JSON form of stored approvals and events is taken as lossless; the 900 KiB limit on the stored queue is one more way for a write to fail.
- The approval queue without a store (memory only) and the audit and Slack messages around it.
- Deletion of the approvals ConfigMap by someone else: versions are never reused and the queue never becomes absent again.
- ApprovalStore.Approvals.UpdateQueue: how long a caller waits between tries and the overall timeout are not modelled; a timeout is a failed read or write.
- ApprovalStore.Approvals.ApproveFix: the gate it calls is modelled in Gate.dfy; here the change handed to it is recorded in `sent`, and the gate keeps it from the cluster or not for any reason.
- ApprovalEffects.BuiltDoesAsAsked: the API server refuses only what is missing or already there; permissions, validation and time-outs are one more way of not reaching the cluster. A deleted pod is gone at once, and of a Job only its template and owner are kept.
- ApprovalOnce.CommittedOnce: it does not cover a client that sends a write again by itself and is answered with the conflict of its own first try; InvLanded and AtMostOnce do.
- ApprovalProtocol.AtMostOnce: it says nothing of how long after the stored approval the change reaches the gate; a held-up handler may arrive after the expiry.
- Liveness of approvals under endless conflicts.
- Gate.Deps.GatePreview: the wording of the details is not modelled, nor the store of policies, whose list for the namespace is an input.
- Gate.Deps.ApplyMutation: the policy found for a workload is the same at the check and at the record of one call; the messages, metrics and the alert a tripped breaker sends are not modelled.
- The dry-run log kept as nil, and the choice of effective policy and cooldown among several.
- Templates read by `templateRefs`: the use a workload makes of an object is an input, and the reloader is handed each listed workload's rules as `workloadRules` reads them.
- SHA-256: a hash is a function of the text hashed, and the proofs are about that text.
- Reloaders.Reloader.ReloadTick: the reload log, which is bounded and only shown, is not kept.
- ReloadVerdicts.EveryTurnJudges: whether a workload is up, past its deadline or degraded is read off its status by comparisons that are not modelled; a reading says which.
- ReloadWaves.BlockedStayBlocked: the blocked set lives as long as the process; a restart forgets it, as in the code.
- Forwarders.Forwarder.Drain: other handlers do not record during it, since with them it need not end; Flush and the runs do allow it.
- The 64-bit wrap-around of the forwarder's sequence numbers.
- Two flushes of one forwarder at the same time: the code runs them from one loop.
- Events.Recorder.Record: Go's JSON encoder writes nothing more once a write has failed, until the process restarts; the model lets later writes succeed as well.
- `Recorder.Since`, which relies on events in time order, `Stats` and `Close`.
- Replicate.Backfill: every event copied is stamped from one clock reading where it has no time.
- FixTrackers.FixTracker.VerifyFixes: one pass at a time, as the leader loop runs them; how the health of a workload is read from the cluster is an input.
- NetProbes.NetProber.ProbeServices: the order of the targets is an input; DNS and egress probes are not modelled. They keep streaks of their own in the same count, and a lookup that fails leaves the streak of slow ones as it was, so slow lookups reported as several in a row may have failures between them.
- Goroutine scheduling below a lock: each critical section is one step.
