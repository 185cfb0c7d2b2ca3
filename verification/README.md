# Durable Threads, verified

Durable Threads decides when agent work may run, retry and count as complete. This
project models its stateful cores and its printers and parsers in Dafny and proves what
they keep over whole runs. `dafny verify dfyconfig.toml` checks everything.

| file | models |
|---|---|
| TaskWorkflow.dfy | the durable policy loop in Python: an object driven by its event history, and the run it computes as a value |
| TypeScriptWorkflow.dfy | the second implementation of the loop |
| CommandTrace.dfy, RoundTrace.dfy, WorkflowTheorems.dfy, RoutingTheorems.dfy, Outcomes.dfy | what every run keeps: commands, completion, reviews, rounds, effort, exclusions, child ids; and what its texts, reports and results mean |
| EditionEquivalence.dfy | where the two implementations are one policy, and exactly where not |
| Intelligence.dfy, Registry.dfy | risk and result policy; the executor registry and the routing activity |
| TaskLedger.dfy, LedgerFile.dfy, Dispatch.dfy | the task ledger, its lock file among many processes, and the dispatch command |
| LiveControl.dfy | live step control with overlapping calls |
| UsageLedger.dfy, CanonicalJson.dfy | idempotent usage receipts and the canonical JSON printer behind their key |
| Evidence.dfy, EvidenceCheck.dfy | the worker-result parser and evidence acceptance |
| ModelCatalog.dfy | the paginated catalog reader |
| Common.dfy | lexicographic order, decimal text, optional values |

How runs are modelled. A workflow consumes a history of activations, each with review
signals and at most one result; a theorem over all histories is a theorem over every
arrival order of signals and results. The Python object and the TypeScript function are
methods over the same host state, each proved against the specified run of its edition,
and the theorems are about the specified runs. Ledger processes and live-control calls
are small steps, interleaved arbitrarily. Availability, the decision engine, the JSON
loader, glob matching, redaction and number rounding are arbitrary functions.

Three results are about what the code does not promise. Task review is not monotone in
risk (`Intelligence.ReviewLostByHigherFloor` says exactly when it is lost). The two loop
implementations differ on one kind of attempt (`EditionEquivalence.VerdictsDiffer` says
exactly which). Complete pricing does not imply a number of credits
(`UsageLedger.SumIsConsistent` says exactly when it is one). JSON text follows sections
4, 5 and 7 of RFC 8259, and keys are sorted as in section 3.2.3 of RFC 8785.

## Model

| member | source | states |
|---|---|---|
| WorkflowTheorems.CompletionAuthority | src/durable_threads/temporal_workflows.py:255-424 | Over every history and in both editions: a finished run is `complete` if and only if the last round's best attempt exited with zero, has verified evidence and is integration-ready, and - when the assessed task or that attempt needs review - a wait opened after that round was released by an approval. The selected provider is that attempt's and the reported attempts are all the attempts made. |
| WorkflowTheorems.CriticalWorkIsReviewed | src/durable_threads/intelligence.py:171-186 | Work assessed at R3 or R4 by the deterministic floor or by the decision engine completes only after a reviewer approved the executed result. |
| WorkflowTheorems.NoStaleApproval | src/durable_threads/temporal_workflows.py:184-196 | With review signals arriving at any point: each wait is released by the latest decision of the first delivery after it began, each decision releases at most one wait, and every wait but the consequence gate's was opened after the last round reported. A run opens at most two waits, and all of them have been released but one that it is blocked on. |
| WorkflowTheorems.GateComesFirst | src/durable_threads/temporal_workflows.py:269-279 | On every history, and so on every prefix of one: behind the consequence gate the first commands are the assessment and the gate's wait, and any command after them means that this wait was released by an approval. |
| CommandTrace.RunTraced | src/durable_threads/temporal_workflows.py:255-424 | The commands of every run: they begin with the assessment and the gate's wait, no two children share round and index, and opened waits are counted by released ones and the one a blocked run is waiting on. |
| WorkflowTheorems.EarlyApprovalIsDropped | src/durable_threads/temporal_workflows.py:188-196 | A concrete pair of runs: an approval delivered together with the last report is dropped and the run keeps waiting; the same approval after the wait began completes it. |
| RoundTrace.CommandsAreRounds | src/durable_threads/temporal_workflows.py:281-415 | After the opening, the commands of every run are those of its rounds, in order, and possibly a last review wait: one routing request a round - the first request, or exactly what the intervention of the round before it made of that round's - and then one child, at the request's effort, for each distinct provider of an answer from the history. The rounds that reported are the first of these, at most one more was begun, and there are at most max_attempts. |
| Outcomes.TextsDecide | src/durable_threads/temporal_workflows.py:281-415 | Over every run in both editions: the first routing request carries the task's own effort and preference, and is issued exactly when a round is allowed and the consequence gate, if there is one, was approved. After each reported round there is another request if and only if rounds are left, the best attempt is not verified, and its intervention text is `switch_executor`, `correct_same` or `stronger_model`; the first adds exactly that attempt's provider to the exclusions and clears the preference, the second prefers it and changes nothing else, the third prefers it and raises the effort one rung. |
| Outcomes.RetryMeans | src/durable_threads/temporal_workflows.py:399-407 | The same for one decision: what each intervention text makes of the loop variables. |
| Outcomes.DecisionMeans | src/durable_threads/temporal_workflows.py:318-415 | Which best attempts are retried, which are shown to a waiting reviewer and which are accepted, in terms of their own fields and texts, in each edition. |
| Outcomes.WaitsWhenShown | src/durable_threads/temporal_workflows.py:342-397 | After a round, a run ends in a review wait exactly when no other request follows and that round's best attempt is one to show: verified and in need of review, or not verified with the texts for which each edition asks. |
| Outcomes.ResultMeans | src/durable_threads/temporal_workflows.py:234-253 | Every run's attempts are its children's reports: for each round there is a stretch of the history, begun by the round's routing answer, whose first answer for each child is what the attempt repeats field by field, or a failure that can neither complete nor be retried. A finished run is `rejected` exactly if the last wait's decision was a refusal, `failed` exactly if no round was ever possible or the last best attempt was to be retried; the selected provider is the last best attempt's, or of a failed run the first best of all attempts'; the note is the deciding reviewer's; and only an activity's failure or a cancelled child aborts. |
| Outcomes.ChildrenTell | src/durable_threads/temporal_workflows.py:209-233 | Gathering children: each result is what that child's first answer says, wherever the others' answers fall in between. |
| Outcomes.BestIsStrongest | src/durable_threads/temporal_workflows.py:84-91 | The chosen attempt is at least as strong as every other one, comparing acceptance, readiness and then the two certainties, and stronger than all before it; it is accepted if any attempt is. |
| Outcomes.CompletionIsCertain | src/durable_threads/intelligence.py:260-270 | Where the result policy assessed the children's reports, a run completes only with an attempt that exited with zero, has verified evidence, and on which the engine said `accept` with both certainties at least the threshold of the task's risk. |
| Outcomes.StrongerIsRungUp | src/durable_threads/temporal_workflows.py:94-100 | Each effort's next rung, by name; an effort off the ladder becomes `high`. |
| RoundTrace.ChildrenAreOfRounds | src/durable_threads/temporal_workflows.py:198-232 | A child is started exactly if it is one of an answered round: its round's number, its place among the answer's distinct providers, and the round's effort. |
| WorkflowTheorems.RoundsKeep | src/durable_threads/temporal_workflows.py:286-424 | The invariant behind these theorems, kept by any number of rounds from any loop state that satisfies it. |
| RoundTrace.CommandEffortsClimb | src/durable_threads/temporal_workflows.py:405-407 | In every run the k-th routing request's effort is the requested one raised once for each earlier round that asked for a stronger model, every child runs at its request's effort, and nothing else changes it - also in a round that never reports. |
| WorkflowTheorems.RaisingClimbs | src/durable_threads/temporal_workflows.py:94-100 | Raising an effort n times moves it n rungs up the ladder and stays at the top. |
| TaskWorkflow.BestIndex | src/durable_threads/temporal_workflows.py:84-91 | The chosen attempt is the first one of maximal rank. |
| TaskWorkflow.FirstMaxUnique | src/durable_threads/temporal_workflows.py:316 | That choice is determined: two first maxima of one list coincide. |
| TaskWorkflow.Distinct | src/durable_threads/temporal_workflows.py:300-304 | Distinct routed providers, all of them routed, none lost except empty names in the TypeScript edition. |
| TaskWorkflow.DistinctIsFirsts | src/durable_threads/temporal_workflows.py:300-304 | They are the first mentions of the routed providers, in order. |
| TaskWorkflow.DurableTaskWorkflow.Deliver | src/durable_threads/temporal_workflows.py:184-191 | One activation: its signals reach the handler before its job is seen. |
| TaskWorkflow.DurableTaskWorkflow.WaitForReview | src/durable_threads/temporal_workflows.py:188-196 | Drops a decision that is already there, waits, and takes the latest decision of the first delivery that brings one; records when the wait began and was released. |
| TaskWorkflow.DurableTaskWorkflow.RunChildren | src/durable_threads/temporal_workflows.py:198-233 | One child per provider, results in start order; a failed child becomes a failed attempt, a cancelled one cancels the run. |
| TaskWorkflow.DurableTaskWorkflow.ExecuteRouting | src/durable_threads/temporal_workflows.py:289-299 | One routing request with the current effort, exclusions and preference; ends with the next routing answer or failure. |
| TaskWorkflow.DurableTaskWorkflow.SelectDistinct | src/durable_threads/temporal_workflows.py:300-304 | The loop that removes repeated providers computes `Distinct`. |
| TaskWorkflow.DurableTaskWorkflow.ReviewOrStop | src/durable_threads/temporal_workflows.py:342-397 | Review when a reviewer is awaited and an immediate review-required result otherwise, with the status that an approval allows. |
| TaskWorkflow.DurableTaskWorkflow.AfterRound | src/durable_threads/temporal_workflows.py:316-415 | What a round's best attempt leads to: the loop variables or the final result that the round's verdict prescribes. |
| TaskWorkflow.DurableTaskWorkflow.PlayRound | src/durable_threads/temporal_workflows.py:286-316 | One pass through the loop body, tied to the specification's round. |
| TaskWorkflow.DurableTaskWorkflow.RunRounds | src/durable_threads/temporal_workflows.py:281-424 | The whole round loop computes the specification's run from its first loop state. |
| TaskWorkflow.DurableTaskWorkflow.RunTask | src/durable_threads/temporal_workflows.py:255-424 | The object's run on a history is the specified run, commands and waits included; while blocked, its phase says `waiting_for_human_review` exactly when a wait is open, and when finished it is the result's status. |
| TypeScriptWorkflow.BetterAttempt | apps/worker/src/workflows.ts:70-93 | The pairwise comparison prefers the right attempt exactly when its rank is higher. |
| TypeScriptWorkflow.Reduce | apps/worker/src/workflows.ts:260 | Folding the pairwise choice finds the same attempt as Python's first lexicographic maximum. |
| TypeScriptWorkflow.AfterRound | apps/worker/src/workflows.ts:260-322 | The second edition's decision after a round, tied to its specification. |
| TypeScriptWorkflow.RunTask | apps/worker/src/workflows.ts:145-336 | The second edition's run on a history is the specified run of that edition. |
| EditionEquivalence.OnePolicy | apps/worker/src/workflows.ts:237-335 | On every history the two editions' runs differ exactly when Python executed a provider without a name or the last round is one that `Differ` describes, which needs waiting on. Unless a nameless provider was executed they run the same rounds and agree on exactly which runs complete and on everything about those; with waiting off they are then the same run - commands, requests, effort values, status, provider, attempts and note. |
| EditionEquivalence.TypeScriptNames | apps/worker/src/workflows.ts:246-253 | The TypeScript edition never executes a provider without a name. |
| EditionEquivalence.PythonNames | src/durable_threads/temporal_workflows.py:300-304 | Nor does Python when every routed provider has a name, as executor descriptors require. |
| EditionEquivalence.VerdictsDiffer | apps/worker/src/workflows.ts:278-293 | Exactly when the two editions decide differently about a best attempt, and then one asks the reviewer and the other stops. |
| EditionEquivalence.GenuineDifference | src/durable_threads/temporal_workflows.py:408-415 | For attempts assessed by the result policy, the one difference is an `accept` that is not integration-ready but needs review, with waiting on. |
| EditionEquivalence.EditionsDoDiffer | apps/worker/src/workflows.ts:280-293 | A history on which Python returns at once and TypeScript waits for the reviewer. |
| Intelligence.RiskFloor | src/durable_threads/intelligence.py:171-197 | The engine never lowers the deterministic risk floor; R3 and above are always reviewed; a reviewed task is never left to a single worker; the gate is on exactly if the floor or the engine's class reaches its level. |
| Intelligence.ReviewLostByHigherFloor | src/durable_threads/intelligence.py:177-181 | Under any decision policy, raising the risk floor switches task review off exactly when the higher class stays below R3 and the review probability reaches the lower class's threshold but not the higher one's: task review is not monotone in risk. |
| Intelligence.ReviewIsNotMonotone | src/durable_threads/intelligence.py:177-181 | A concrete loss of review by a higher floor. |
| Intelligence.AcceptanceIsMonotone | src/durable_threads/intelligence.py:260-270 | Under any decision policy, readiness and acceptance at a class imply the same at a lower one for all answers exactly when the policy's two thresholds are in order, as the default policy's are. |
| Intelligence.AcceptanceNeedsEvidence | src/durable_threads/intelligence.py:262-270 | Acceptance needs exit code zero and complete evidence, never happens at R3 or above, and agrees with the completion gate. |
| Intelligence.ResultPolicyMeans | src/durable_threads/intelligence.py:257-277 | Readiness exactly for a zero exit with complete evidence, the answer `accept` and both certainties at the risk's threshold; acceptance exactly for ready work below R3; review exactly from R3 up or on `human_review`. |
| Intelligence.CertaintyHelps | src/durable_threads/intelligence.py:257-270 | More certainty never takes readiness or acceptance away; and the default policy's thresholds by value. |
| Intelligence.HigherRisk | src/durable_threads/intelligence.py:20-23 | The maximum of two risk classes. |
| Intelligence.CompletionGate | packages/policy/src/efficiency.ts:188-195 | The completion gate of both languages: complete exactly for verified work whose review, if any, was approved; unverified exactly for work that is not ready. |
| Registry.ExecutionRegistry.Register | src/durable_threads/execution.py:239-243 | A second registration under one id is refused and changes nothing unless it replaces; otherwise exactly the entry under that id changes. |
| Registry.ExecutionRegistry.Rank | src/durable_threads/execution.py:266-314 | The filtering and scoring loop computes the specified ranking, reasons included. |
| Registry.ReasonsExplainScore | src/durable_threads/execution.py:295-308 | The reasons account for the score: each capability that counts is named exactly if the executor has it, the bonus is the sum of those named, and a preference is named exactly when it scores. |
| Registry.RankingIsCanonical | src/durable_threads/execution.py:266-314 | Ranking returns exactly the eligible executors, each once and in strict order, independent of registration order. |
| Registry.RankedMeetRequirements | src/durable_threads/execution.py:276-293 | An executor is ranked exactly if it is registered and available, has every required capability and property, and is of no excluded provider. |
| Registry.ScoreIsLexicographic | src/durable_threads/execution.py:295-313 | Score order is the lexicographic order of preference position, capability bonus and id. |
| Registry.Preference | src/durable_threads/execution.py:272-275 | The preference score: zero exactly for providers that are not preferred; a later mention overrides an earlier one. |
| Registry.RouteHonoursExclusions | src/durable_threads/temporal_activities.py:52-76 | Routing stays inside the registry, honours every exclusion and the fan-out bound. |
| Registry.RoutesCanWork | src/durable_threads/temporal_activities.py:52-76 | Every routed provider has a registered, available executor that runs headless with structured output, has all capabilities the task requires and is not excluded; and as many places are filled as there are such executors, up to one, or for parallel work without `filesystem` and `git` up to the requested parallelism. |
| Registry.RoutesArePreferred | src/durable_threads/temporal_activities.py:55-65 | Routes come in order of preference - the request's, or the task's if it has none - and an executor that could do the work is left out only for providers at least as preferred. |
| RoutingTheorems.ExclusionIsPermanent | src/durable_threads/temporal_workflows.py:399-402 | No child started after the round in which a switch dropped a provider runs that provider, whether or not the child's round ever reports, and every later request leaves strictly fewer providers routable. |
| RoutingTheorems.SwitchesAreBounded | src/durable_threads/temporal_workflows.py:286-407 | A registry of n providers admits at most n switch rounds, whatever the attempt limit. |
| RoutingTheorems.SwitchesExclude | src/durable_threads/temporal_workflows.py:399-402 | After any rounds there are as many exclusions as switches, all distinct and registered. |
| RoutingTheorems.WritersAreSerialized | src/durable_threads/temporal_activities.py:66-76 | Work that needs `filesystem` or `git` starts one child per round, other work at most the requested parallelism, also in rounds that never report; a run starts at most max_attempts times that many children, and a finished one reports at most that many attempts. |
| RoutingTheorems.CorrectionGoesBack | src/durable_threads/temporal_workflows.py:403-407 | After `correct_same` or `stronger_model`, once the next request is answered its first child is started for the best attempt's provider, as long as one of that provider's executors is still eligible. |
| RoutingTheorems.ChildrenAreCapable | src/durable_threads/temporal_activities.py:52-76 | Every child a run starts is of a provider with an executor that could do the task's work when its round was routed and that the run had not excluded by then. |
| RoutingTheorems.PreferredComesFirst | src/durable_threads/execution.py:295-313 | A single preferred provider outranks every other one, whatever their capabilities. |
| RoutingTheorems.ChildIdInjective | src/durable_threads/temporal_workflows.py:220 | A child workflow id determines its round, index and provider, whatever characters the provider's name has. |
| RoutingTheorems.ChildIdText | src/durable_threads/temporal_workflows.py:220 | How an id reads. |
| RoutingTheorems.ChildIdsAreDistinct | src/durable_threads/temporal_workflows.py:209-230 | All child workflow ids of a run are distinct. |
| TaskLedger.ClaimGrantedIff | src/durable_threads/ledger.py:156-193 | A claim is granted exactly to the next follow-up of a task that is neither running nor stopped, under its recorded limit, provider and session. |
| TaskLedger.Ledger.BeginTask | src/durable_threads/ledger.py:139-208 | A claim under the lock file: refused with the first failing check and nothing written, or granted and written; an existing lock refuses it untouched. |
| TaskLedger.Ledger.ClaimLocked | src/durable_threads/ledger.py:156-208 | The claim's checks in order, and the entry and file it writes. |
| TaskLedger.Ledger.RecordTask | src/durable_threads/ledger.py:101-137 | A record under the lock file: the updated entry, the whole file redacted, the redacted entry returned. |
| TaskLedger.RecordMeans | src/durable_threads/ledger.py:115-137 | What a record stores: the id, role and status it names, and the provider, session, result and usage it was given, each text redacted; what it was not given, and both counters, stay the entry's own; no other entry changes but for redaction; it is refused only for an unreadable file. |
| TaskLedger.ClaimMeans | src/durable_threads/ledger.py:195-208 | What a granted claim stores: a running entry with the claim's provider, role, index and limit and with its session if one is given; result and usage stay; no other entry changes but for redaction. |
| TaskLedger.RefusalMeans | src/durable_threads/ledger.py:151-193 | A refused claim names an obstacle that is really there; a bad index is reported before the file is read, and a stop only when nothing else is in the way. |
| TaskLedger.RecordedSessionSticks | src/durable_threads/ledger.py:125-172 | Once a record names a provider and a session that redaction leaves alone, every later granted claim is that provider's in that session, over any commands in which no record names another. |
| TaskLedger.SaveKeepsStops | src/durable_threads/ledger.py:79-99 | What a save keeps although it redacts the whole file: the entries, both counters, and every stop status, so that an entry that stops claims goes on refusing them all. |
| TaskLedger.RetryGrantedIff | src/durable_threads/ledger.py:167-193 | After a granted claim and a record, the same provider and session may claim the next follow-up exactly when the limit leaves one, the stored status is no stop, and redaction left provider and session recognisable. |
| TaskLedger.ClaimsAreNumbered | src/durable_threads/ledger.py:177-203 | Over any commands from a ledger without the entry: the k-th successful claim carries index k-1, the limit stays the first claim's, so there are at most limit+1 claims. |
| TaskLedger.RecordedFirstNeverClaimed | src/durable_threads/ledger.py:115-137 | An entry first created by a plain record can never be claimed. |
| LedgerFile.Linearizable | src/durable_threads/ledger.py:30-45 | For any number of processes interleaving lock, read, decide, replace, unlink, failure and crash at every step: the file is what the logged commands produce one at a time in replace order, refused commands change nothing, and every reply is the one an atomic table would give. |
| LedgerFile.StepKeeps | src/durable_threads/ledger.py:79-99 | Every single step keeps the invariant: one lock holder at most, and what it has read is still current. |
| LedgerFile.FileIsReplay | src/durable_threads/ledger.py:79-137 | The file is the sequential replay of the committed commands. |
| LedgerFile.FrozenAfterCrash | src/durable_threads/ledger.py:30-43 | After a crash inside the lock the file never changes again and every later command finds it locked. |
| LedgerFile.CrashFreezes | src/durable_threads/ledger.py:30-43 | From any start and any interleaving: a crash at any point between creating the lock file and removing it leaves the file for good as it then is, with no later command committed. |
| LedgerFile.FailedCommand | src/durable_threads/ledger.py:30-45 | A command that fails after reading leaves the file alone and frees the lock. |
| LedgerFile.UndisturbedCommand | src/durable_threads/ledger.py:30-45 | A command that runs undisturbed on a free lock has the atomic effect and frees the lock. |
| Dispatch.Run | src/durable_threads/cli.py:205-271 | One dispatch: an existing lock file or a refused claim starts nothing, changes nothing and raises the error; a granted claim starts the provider once, leaves the recorded outcome, and raises, or exits with zero, two or the provider's code. |
| Dispatch.DispatchByMoves | src/durable_threads/cli.py:205-271 | The interleaved moves of one undisturbed dispatch - claim, start, then report or abort - have that same effect on the ledger and start the provider once. |
| Dispatch.FinalStatus | src/durable_threads/cli.py:224-270 | Every status that a claimed dispatch records is a stop status other than `running`. |
| Dispatch.CompleteNeedsEvidence | src/durable_threads/cli.py:237-244 | The recorded status is `complete` exactly for a zero exit, in the session asked for, with evidence that was checked and found complete. |
| Dispatch.EndsMean | src/durable_threads/cli.py:224-271 | Exactly when a claimed dispatch records each of its four statuses, and the exit of each: 0 for accepted work, the provider's own code or else 2 for blocked work, an error when nothing can be told. |
| Dispatch.DispatchLeaves | src/durable_threads/cli.py:238-270 | What a granted dispatch leaves in the ledger: its status, role, provider and counters, the session the provider reported or else the one asked for, the usage reported or else the old one, and the result text that fits the status. |
| Dispatch.StartsAreBounded | src/durable_threads/cli.py:205-271 | Over any interleaving of dispatches and records on one entry, with crashes anywhere: at most one provider start per granted claim, at most limit+1 starts, and at most one more than there were records with a retryable status. |
| Dispatch.DispatchAloneStartsOnce | src/durable_threads/cli.py:238-270 | Dispatches alone start the provider at most once, whatever the limit. |
| LiveControl.CodexLiveStepControl.BeginUpdate | packages/executors/src/live-step-control.ts:43-57 | The part of an update before its await: the first refusal, a replayed receipt, or one RPC with the busy flag set. |
| LiveControl.CodexLiveStepControl.CompleteUpdate | packages/executors/src/live-step-control.ts:58-76 | The part after the reply: the flags and the receipt it leaves. |
| LiveControl.ControlIsSafe | packages/executors/src/live-step-control.ts:43-76 | Under every interleaving of overlapping calls: at most one RPC outstanding, at most one per decision id, at most 64 in total, and the receipts are exactly the replies that the sent calls got. |
| LiveControl.BeginMeans | packages/executors/src/live-step-control.ts:43-57 | After any run: a call is sent if and only if its id is not blank and new, the executor is qualified and advertises the effort, nothing is outstanding, every reply so far was `applied` and fewer than 64 were sent; a repeated decision gets the receipt of its first call; and every refusal has the reason it gives. |
| LiveControl.SentIsAdvertised | packages/executors/src/live-step-control.ts:43-76 | Every RPC a run sends names its decision and asks a qualified executor for an advertised effort, and every receipt tells which of the three things its reply meant. |
| LiveControl.NoRpcAfterHalt | packages/executors/src/live-step-control.ts:54-69 | Stored receipts never change, and after the first `unknown` or `targetUnavailable` reply no RPC is ever sent again, although each completion assigns both flags afresh. |
| CanonicalJson.CanonicalIffEqual | packages/policy/src/decisions.ts:67-77 | Two JSON values print to the same text if and only if they are equal up to the order of object properties, at every depth. |
| CanonicalJson.ReadPrint | packages/policy/src/decisions.ts:67-77 | A reader inverse to the printer: printing and reading back gives the value, whatever follows the text. |
| CanonicalJson.SameMeaningSamePrint | packages/policy/src/decisions.ts:75-76 | Values equal up to property order print alike. |
| CanonicalJson.QuoteRoundTrip | packages/policy/src/decisions.ts:69 | String quoting, with short, hexadecimal and surrogate escapes, reads back to the same code units. |
| CanonicalJson.EscapesAreStandard | packages/policy/src/decisions.ts:69 | Which units are escaped and how: the letters of JSON's short escapes, four lower-case hexadecimal digits for other controls and lone surrogates, and everything else as itself. |
| CanonicalJson.PrintIsPrintable | packages/policy/src/decisions.ts:67-77 | The text of any value is valid UTF-16 without control characters, whatever its strings contain. |
| CanonicalJson.ArrayText | packages/policy/src/decisions.ts:71-73 | The punctuation of an array's text. |
| CanonicalJson.ObjectText | packages/policy/src/decisions.ts:74-76 | The punctuation of an object's text, the smaller key first whichever was created first. |
| Common.LexMeans | packages/policy/src/decisions.ts:75 | The order of keys is decided at the first code unit where two differ, and a proper prefix is smaller. |
| CanonicalJson.SortedFieldsAreSorted | packages/policy/src/decisions.ts:75 | Properties print in strictly increasing order of UTF-16 code units. |
| CanonicalJson.UsageKeyInjective | packages/policy/src/efficiency.ts:58 | The usage key never collides for different (provider, executionId, requestId). |
| UsageLedger.UsageLedger.Record | packages/policy/src/efficiency.ts:39-68 | The checks in order with their errors; a new request is appended, an equal receipt is a duplicate, a different one a conflict, and only a new request changes the ledger. |
| UsageLedger.UsageLedger.Store | packages/policy/src/efficiency.ts:58-67 | Lookup under the JSON key finds the receipt of the same request, or none. |
| UsageLedger.UsageLedger.Summary | packages/policy/src/efficiency.ts:70-101 | For any monotone rounding that is exact up to 2^53: a summary is returned exactly when all four exact token sums are safe integers, and then every total in it is exact. |
| UsageLedger.SumAccounts | packages/policy/src/efficiency.ts:71-90 | Each of the four token totals is the sum of that count over all receipts, each kind's counter and the unpriced one is the number of such receipts, and credits that are a number are the sum of all credits. |
| UsageLedger.SummaryReports | packages/policy/src/efficiency.ts:91-100 | A summary is refused exactly when one of those four sums exceeds 2^53 - 1, and otherwise reports them, their difference, the number of receipts and whether all were priced. |
| UsageLedger.CheckMeans | packages/policy/src/efficiency.ts:40-57 | A claim is acceptable exactly if it restates, field by field, a receipt with four non-blank names and with counts in range, cached within input and reasoning within output. |
| UsageLedger.RejectionMeans | packages/policy/src/efficiency.ts:40-49 | A rejected claim has the fault that its error names, and an acceptable one has none. |
| UsageLedger.CreditsAdd | packages/policy/src/efficiency.ts:86-89 | Credits are additive in the token counts, and reasoning tokens are not charged on top of output. |
| UsageLedger.MillionsCostTheRate | packages/policy/src/efficiency.ts:21-26 | A million fresh, cached or output tokens cost the published rate of their model. |
| UsageLedger.RangeCheckIsSound | packages/policy/src/efficiency.ts:91-93 | Checking the rounded totals after the fact is sound and complete. |
| UsageLedger.AddUp | packages/policy/src/efficiency.ts:74-90 | The accumulation loop: rounded totals are exact or have left the safe range for good. |
| UsageLedger.KeyIdentifies | packages/policy/src/efficiency.ts:58-60 | Two receipts share a key exactly when they are for one request. |
| UsageLedger.ReplyMeans | packages/policy/src/efficiency.ts:59-67 | When an acceptable claim is recorded, a duplicate or a conflict; nothing else changes the ledger. |
| UsageLedger.AccountingIsOverTheSet | packages/policy/src/efficiency.ts:59-101 | Replaying or reordering any conflict-free claims gives the same summary. |
| UsageLedger.ConflictFreeIff | packages/policy/src/efficiency.ts:60-65 | Exactly when a history is conflict-free: none of its claims was answered with a conflict. |
| UsageLedger.SumIsConsistent | packages/policy/src/efficiency.ts:70-100 | requests = generations + prewarms + compactions; cached <= input; reasoning <= output; pricing is complete exactly when every receipt is priced; and exactly when the credits are a number. |
| UsageLedger.CompletePricingMayLackANumber | packages/policy/src/efficiency.ts:82-99 | Complete pricing does not promise a number of credits: the rate table is an object literal, so a model named `toString` is found in it. |
| UsageLedger.AddCredits | packages/policy/src/efficiency.ts:82-89 | One receipt's contribution to the credits: nothing for an unpriced one, which is counted, and otherwise its charge. |
| Evidence.TextRoundTrip | src/durable_threads/evidence.py:83-139 | Plain evidence rendered in the documented text form parses back to itself, whatever heading words its items contain, with any JSON loader that reads objects only from text that starts with a brace. |
| Evidence.TextRoundTripIff | src/durable_threads/evidence.py:83-139 | Exactly which evidence the text form carries faithfully: known status, one-word provider, and single-line, trimmed, nonempty items without a leading dash. |
| Evidence.ParseRendered | src/durable_threads/evidence.py:123-139 | What the rendering of any single-line items parses to. |
| Evidence.FromTextShape | src/durable_threads/evidence.py:124-139 | Whatever the text, a parsed result has a known status, a one-word provider or none, and single-line items. |
| Evidence.SectionsAsWritten | src/durable_threads/evidence.py:83-96 | However a document is written - headings in any case, order and number, the first item on the heading's line or below it, items after any dashes and spaces or none - the section under a heading is the items under it, in order and unchanged. |
| Evidence.ListsAsWritten | src/durable_threads/evidence.py:123-139 | So the parsed lists of any such document are what a reader finds in it. |
| Evidence.StatusInAnyCase | src/durable_threads/evidence.py:124-131 | The status and its name may be written in any case. |
| Evidence.PayloadMeans | src/durable_threads/evidence.py:66-80 | Structured evidence is the last line that is evidence; the whole text counts only where no line does. |
| Evidence.LineEnds | src/durable_threads/evidence.py:84 | A line ends at any line break, and a carriage return with the newline after it is one. |
| Evidence.PayloadRefusal | src/durable_threads/evidence.py:58-63 | A payload is refused for the first of its arrays that is no list of non-blank texts, or else for its status. |
| Evidence.PayloadReads | src/durable_threads/evidence.py:104-122 | A payload's lists read trimmed and in order, an empty list of concerns as `None known`, and its provider trimmed. |
| Evidence.JsonRoundTripIff | src/durable_threads/evidence.py:58-63 | Exactly which evidence the JSON form carries: trimmed nonempty items and at least one concern. |
| Evidence.SectionValues | src/durable_threads/evidence.py:83-96 | The line loop computes the section under a heading. |
| Evidence.JsonPayload | src/durable_threads/evidence.py:66-80 | The last line that loads as evidence, or else the whole text. |
| Evidence.ParseWorkerResult | src/durable_threads/evidence.py:99-139 | The parser computes the specified result or the specified error. |
| EvidenceCheck.ValidatePaths | src/durable_threads/evidence.py:148-161 | The path loop: the cleaned paths in first-seen order, or the first bad path. |
| EvidenceCheck.CleanIff | src/durable_threads/evidence.py:148-161 | Cleaning succeeds exactly when every path is relative, free of steps up and allowed, and then gives exactly the cleaned paths, each once. |
| EvidenceCheck.CleanIsFirsts | src/durable_threads/evidence.py:159-161 | The cleaned list keeps each path's first mention, in order. |
| EvidenceCheck.AcceptedIff | src/durable_threads/evidence.py:164-208 | Evidence is accepted exactly when its provider is an executor id, every claimed path is good, complete work names checks and concerns and no unsuccessful check, and the claimed paths are the diff's as sets. |
| EvidenceCheck.SafeMeans | src/durable_threads/evidence.py:155 | A path is safe exactly if it is nonempty, relative, not the directory itself, and nowhere has two dots between slashes or ends of the path. |
| EvidenceCheck.StepsUpAreUnsafe | src/durable_threads/evidence.py:155 | Steps up at the start, at the end and in the middle of any path are refused. |
| EvidenceCheck.AcceptedStaysInside | src/durable_threads/evidence.py:142-191 | Every path of accepted evidence, and of the diff it was checked against, is relative, uses forward slashes only, never steps up, and is an allowed path, under one, or matched by one. |
| EvidenceCheck.AcceptedSaysEnough | src/durable_threads/evidence.py:172-185 | Accepted evidence names an executor - one to 64 lower-case letters, digits, dots, dashes and underscores, the first a letter or digit - and complete evidence lists checks, none of which reports a failure, and concerns. |
| EvidenceCheck.SiblingsAreOutside | src/durable_threads/evidence.py:142-145 | A path that only begins like an allowed one is not within it. |
| EvidenceCheck.RefusalMeans | src/durable_threads/evidence.py:148-201 | Refused evidence has the fault that its refusal names. |
| EvidenceCheck.AcceptedCleans | src/durable_threads/evidence.py:202-208 | Acceptance cleans the list of paths and changes nothing else. |
| EvidenceCheck.AcceptanceIsIdempotent | src/durable_threads/evidence.py:164-208 | Accepted evidence is accepted again, unchanged. |
| EvidenceCheck.DiffIsASet | src/durable_threads/evidence.py:186-191 | The order and the repeats of the diff's paths do not matter. |
| EvidenceCheck.AllowingMoreKeeps | src/durable_threads/evidence.py:142-161 | Allowing more paths never turns acceptance into rejection, nor changes what is accepted. |
| ModelCatalog.ReadModelCatalog | packages/policy/src/model-catalog.ts:62-77 | Against any deterministic server: at most twenty requests that follow the walk, all with different cursors, and an outcome the walk justifies. |
| ModelCatalog.OutcomeMeans | packages/policy/src/model-catalog.ts:62-77 | The catalog is returned exactly when the walk ends within twenty pages, and then it is the concatenation of all its pages; a repeated cursor is reported exactly when one repeats within them, and then the walk never ends. |
| ModelCatalog.PagesInOrder | packages/policy/src/model-catalog.ts:62-77 | The catalog lists the pages in the order of their requests, each page's models in their own order. |
| ModelCatalog.WalkFollows | packages/policy/src/model-catalog.ts:66-76 | What each page does to the walk: a bad one breaks it, one without a cursor ends it, any other is followed. |
| ModelCatalog.RepeatedNeverEnds | packages/policy/src/model-catalog.ts:72 | A walk that comes back to a cursor never ends. |

## Left out

- Temporal itself: timers, retries, heartbeats and replay. An activity answers or fails once, and an `await` sees deliveries in order. Two things about the SDKs are assumed, not proved: within one delivery signals reach the handler before results are seen, and a child outcome that Python sees as `asyncio.CancelledError` (src/durable_threads/temporal_workflows.py:222) is one for which TypeScript's `isCancellation` holds (apps/worker/src/workflows.ts:203), so that one history event stands for both.
- `AgentExecutionWorkflow` and `agentExecutionWorkflow` (src/durable_threads/temporal_workflows.py:103-160): a child is an arbitrary report. That each starts its execution activity once is one retry-policy constant.
- Standard output and error, session ids and usage of attempts: carried through the loop unread.
- `humanGateRequired`, `reviewRequired` and the like are Booleans here; the sources read them from dictionaries with truthiness rules.
- apps/api/src/local-runtime.ts, a third loop that completes by other rules: the completion theorem is not about it.
- The decision engine, keyword risk classification, quota and effort advice, and roster, packet and configuration checks: single-branch checks or oracles.
- Availability probes that change while one ranking is computed.
- Registry.RouteHonoursExclusions: a parallelism of zero routes nothing here and is refused by the contract in the source (src/durable_threads/temporal_contracts.py:41).
- The redaction pattern: an arbitrary text map that fixes the stop statuses; the empty text stays empty where `TaskLedger.RetryGrantedIff` needs it.
- Timestamps, file modes, the temporary file's name, and ledger files written by hand: entries whose text fields have other JSON types are not modelled, other types of the two counters are.
- Direct external calls of `Ledger.save`, which bypass the lock.
- Dispatch.Run: the exception's type name in the stored text, the printed payload, and prompt and argument building are not modelled.
- JSON numbers are their shortest decimal text, which determines a finite number. NaN, infinities, minus zero, `undefined` and cyclic values are not modelled, nor is the SHA-256 of the text.
- UsageLedger.UsageLedger.Summary: credits are exact reals, so the rounding of the credit sum is not modelled.
- Word matching for unsuccessful checks and glob matching are oracles, and so is the JSON loader; a missing member and one of the wrong type are told apart only by what the parser reads.
- Case folding of characters outside the status words and headings: only the letters that can match them are folded.
- The git commands that find the changed paths.
- Parsing of a catalog page (packages/policy/src/model-catalog.ts:18-55) and model selection: a page that does not parse is a bad page.
