# Verified model of the Loop agent runtime

Loop runs autonomous agent tasks under a persisted state machine. This project models the parts
that decide whether a task survives a crash, a pause, an approval, a delegation or an undo as it
should, and proves their properties. `dafny verify dfyconfig.toml` checks everything.

| file | what it models |
|---|---|
| `Basics.dfy` | options, sequences, stripping, decimal text |
| `LoopPolicy.dfy` | the transition policy of a task and the SQL updates beside it |
| `Ledger.dfy` | the hash chain over recorded steps |
| `RunProtocol.dfy` | one task as a step relation over its durable rows and its process, crashes included |
| `AgentRun.dfy` | the run loop, imperatively, each of its commits and side effects a step of that relation |
| `Authority.dfy` | host policies, capabilities, skills and delegation |
| `Contract.dfy` | merging, renumbering, de-duplicating, extending and pruning a contract's checks |
| `ContractCompiler.dfy` | the validator and the bounded repair loop that may lock a contract |
| `JsonScan.dfy` | the scanner that finds a JSON object in prose |
| `ChangeSets.dfy` | apply, undo, discard and revise over one source tree, with compensation |
| `ChangeParse.dfy` | the parsers of `git diff` listings |
| `AuditStore.dfy` | the audit log over three backends |
| `Revocation.dfy` | the purged revocation table over three backends, and its listener |
| `Progress.dfy` | the guard against repeated actions |
| `TaskTree.dfy`, `TaskService.dfy` | the descendant search, cancellation, and the user's answer |

How the pieces are joined: `RunProtocol.Do` is one atomic step of the whole system, and every
safety theorem is about every run of such steps. `AgentRun.AgentService` holds the fields of the
service and of the task object; each of its methods proves that what it did is a step of `Do`, so
the theorems hold of every prefix of a service run, which is where a crash can come. In the same
way `ChangeSetService`, `TransitionTarget`, `PausedTask`, `ProgressGuard`, `AuditStore` and
`AuthorityRevocationStore` are objects updated in place and proved equal to functions on values,
about which the theorems are stated.

Model replies, tools, the verifier, the critic, the workspace, the clock and the user are inputs
without any assumption. Digests and content hashes are free constructors: equal only for equal
arguments. Operation and task ids are numbers that were not used before. Tests the source writes
as regular expressions (test commands, test paths, tautologies, advisory wording) are arbitrary
functions.

## What the proofs found

Some properties one might expect do not hold of the code. Each has a lemma with the exact
condition under which it does.

- A complete test gate can be removed by the pruning it licenses, when it is a file check that
  also carries a test command (`Contract.GateSurvivesIff`, `Contract.GateCanBePruned`).
- A run can leave its row running. The handler that fails a task covers the loop only, so an
  exception in the preparation, such as one raised while the repository is scanned for a contract,
  passes it by; the row then waits for the reconciliation (`AgentRun.AgentService.Run`,
  `AgentRun.RunWithFailedScan`, `RunProtocol.LeftRunningWaits`).
- Only the first forty required checks are merged (`ContractCompiler.RequiredChecksRetainedIff`). A
  publication cannot hold more, but an implementation fix requires every contract check of the
  delivery it revises and loses those beyond forty (`ContractCompiler.FixRevisionRetainsAllIff`),
  as after a publication with eight commands and thirty-two files
  (`ContractCompiler.FullPublicationLosesACheck`).
- A guard against repetition that is rebuilt on a resume knows nothing of changes a command made to
  the workspace, so it may permit a search that the live one would refuse
  (`Progress.ResumedIsAsStrict`, `Progress.ResumedMayPermitMore`).
- Fence markers are deleted inside JSON strings too, so an object survives the cleaning of a reply
  exactly if its own text holds no fence (`JsonScan.ObjectSurvivesIff`, `JsonScan.QuotedFenceIsLost`).
- The compensation of apply and undo also runs when the commit succeeded and only the refresh
  after it raised; row and source then part ways (`ChangeSets.ApplyStaysConsistentIff`,
  `ChangeSets.UndoStaysConsistentIff`).
- A thought sealed as empty is not covered by the chain (`Ledger.EditDetected`,
  `Ledger.EmptySealedThoughtIsFree`).
- When the clock goes back, the purged revocation table forgets exactly the runs that expired
  before the purge (`Revocation.GoingBackForgetsIff`).
- The claim's update also lists working states, and has a reason text for them, but no history of
  the writers reaches that case (`LoopPolicy.ClaimOnlyFromQueued`).

## Model

| member | source | states |
|---|---|---|
| LoopPolicy.WriteKeeps | apps/api/app/domain/loop.py:133-178 | every effective write of any writer keeps status, stop reason and state consistent, raises the sequence by one, never leaves a terminal state, and completes only from verifying |
| LoopPolicy.HistoryConsistent | apps/api/app/domain/loop.py:104-178 | after every history of writers over a task published with any attempt number the row is consistent, its sequence counts the effective writes and its attempt counts the requeues |
| LoopPolicy.TerminalAbsorbs | apps/api/app/domain/loop.py:78-102 | a terminal row is unchanged by every later history |
| LoopPolicy.ClaimsBounded | apps/api/app/repositories/task.py:50-81 | claims that take effect are at most one plus requeues plus answers |
| LoopPolicy.ClaimOnlyFromQueued | apps/api/app/repositories/task.py:50-81 | on every history a claim takes effect exactly on a queued row |
| LoopPolicy.TransitionTarget.Apply | apps/api/app/domain/loop.py:133-178 | the five columns and the returned transition are the policy's; a refusal changes nothing and is named |
| LoopPolicy.TransitionTarget.ClaimPending | apps/api/app/repositories/task.py:50-81 | the conditional update changes the row exactly when it matches, with the reason of the state it found |
| LoopPolicy.TransitionTarget.ReconcileInterrupted | apps/api/app/services/runner.py:127-156 | the reconciliation of one row in its fail form and its requeue form |
| Ledger.VerifyChain | apps/api/app/services/ledger.py:68-97 | true exactly for a chain that verifies from genesis; otherwise the number of the first step that breaks it |
| Ledger.EveryStepSealed | apps/api/app/services/ledger.py:68-97 | a chain verifies exactly if every step is sealed on the head of the steps before it |
| Ledger.HeadBindsHistory | apps/api/app/services/ledger.py:26-53 | two verified tables with one head have equal length and agree at every step on everything the seal covers |
| Ledger.HeadCharacterised | apps/api/app/services/ledger.py:68-97 | a table verifies with a given head if and only if it records the same history, thoughts sealed as empty apart |
| Ledger.EditDetected | apps/api/app/services/ledger.py:68-97 | an edit of one step passes the check exactly when only a thought sealed as empty changed; any other edit is reported at that step |
| Ledger.EmptySealedThoughtIsFree | apps/api/app/services/ledger.py:88-95 | the legacy branch accepts any thought on a step sealed without one |
| Ledger.AppendVerified | apps/api/app/services/agent_react.py:2269-2313 | a step sealed on the current head keeps the table verified and becomes the head |
| Ledger.ResealVerified | apps/api/app/services/task.py:970-984 | rewriting the last observation and sealing again keeps the table verified |
| RunProtocol.StepKeepsInv | apps/api/app/services/agent_react.py:1305-1782 | every atomic step of the system, crash and requeue included, keeps the protocol invariant |
| RunProtocol.RunKeepsInv | apps/api/app/services/agent_react.py:1305-1782 | and so does every run |
| RunProtocol.CrashAnywhere | apps/api/app/services/agent_react.py:2233-2257 | the process may die after any step of any run: what was committed is kept and the invariant still holds |
| RunProtocol.AtMostOnce | apps/api/app/services/agent_react.py:2233-2257 | in every reachable state no operation id was executed twice and no approval was spent twice |
| RunProtocol.OnlyApprovedSends | apps/api/app/services/agent_react.py:1824-1850 | mail and events are only ever executed from an action the user approved; every approved operation has the tool and the arguments of the paused step the user was shown, the id added to a send apart |
| RunProtocol.ExecutedAreRecorded | apps/api/app/services/agent_react.py:2269-2313 | with an empty journal the executed operations are exactly the recorded ones, each the step of its number; otherwise at most the journaled one is missing |
| RunProtocol.EffectsWereExecuted | apps/api/app/services/agent_react.py:2233-2313 | and the other way: in every reachable state a step that claims success, a finish and a question apart, is the step of exactly one executed operation, with its tool and arguments |
| RunProtocol.TableAlwaysVerifies | apps/api/app/services/agent_react.py:2269-2348 | the step table is always numbered 1 to steps used and verifies from genesis; a live head is the last stored hash |
| RunProtocol.StepsBounded | apps/api/app/services/agent_react.py:1338-1370 | steps used never exceed the limit by more than one, and then the last step is an approved operation |
| RunProtocol.ClaimsInRun | apps/api/app/repositories/task.py:50-81 | in every run claims are at most one plus requeues plus answers |
| RunProtocol.CrashLeavesInFlight | apps/api/app/services/agent_react.py:2233-2257 | a process that dies with a journaled operation leaves it in flight |
| RunProtocol.InFlightNeverResumes | apps/api/app/services/agent_react.py:354-368 | once a process died with an operation in the journal, nothing is executed or recorded in any continuation |
| RunProtocol.InFlightClaimRefused | apps/api/app/services/agent_react.py:354-368 | a claim of such a task can only be refused, crash or be cancelled; the refusal fails it |
| RunProtocol.LeftRunningWaits | apps/api/app/services/runner.py:127-156 | a row left running without a process moves only by the reconciliation or a cancellation: it is neither claimed nor answered |
| RunProtocol.ReachableOnward | apps/api/app/services/agent_react.py:329-368 | a run that starts from a reachable state ends in one, so the theorems hold of every service run |
| RunProtocol.RunWritesRows | apps/api/app/domain/loop.py:133-178 | every committed or in-memory row of a run is one that a history of the state writers produces |
| AgentRun.AgentService.Transition | apps/api/app/services/agent_react.py:193-201 | a transition of the loop is allowed by the policy at every call |
| AgentRun.AgentService.BeginOperation | apps/api/app/services/agent_react.py:2233-2257 | the journal, and the taking of an approved action, are committed together before anything runs; the id is passed to sends and events |
| AgentRun.AgentService.RecordStep | apps/api/app/services/agent_react.py:2269-2313 | the sealed step, the emptied journal and the counters become durable in one commit |
| AgentRun.AgentService.AppendStep | apps/api/app/services/agent_react.py:2269-2327 | the new row is sealed on the head in memory, which becomes its hash |
| AgentRun.AgentService.RebuildHistory | apps/api/app/services/agent_react.py:2339-2348 | a resumed run has the head and the entries of the persisted table |
| AgentRun.AgentService.Stop | apps/api/app/services/agent_react.py:2389-2413 | a run ends completed for a reached goal, and stopped with its reason otherwise |
| AgentRun.AgentService.PauseForUser | apps/api/app/services/agent_react.py:1784-1801 | the question is recorded as one step, the task awaits input, and nothing is executed |
| AgentRun.AgentService.PauseForAction | apps/api/app/services/agent_react.py:1824-1850 | the action is recorded as one blocked step and made pending with its number, and is not executed |
| AgentRun.AgentService.HandleFinish | apps/api/app/services/agent_react.py:2096-2229 | unless the checks raise, a finish is recorded as exactly one step with the verdict's observation and the tokens of planning and verifying; an accepted verdict completes the task exactly if the receipt can be built, and raises otherwise |
| AgentRun.AgentService.FinishTurn | apps/api/app/services/agent_react.py:1461-1497 | a finish turn uses exactly one step number and ends settled, raised, or back at planning |
| AgentRun.AgentService.RunOperation | apps/api/app/services/agent_react.py:2233-2313 | exactly the journaled operation is executed, then recorded as one step with what it returned; if it raises, it stays in the journal and no step is added |
| AgentRun.AgentService.RecordUnexecuted | apps/api/app/services/agent_react.py:1507-1524 | a blocked or invalid decision is recorded as one step and executes nothing |
| AgentRun.AgentService.ExecuteApproved | apps/api/app/services/agent_react.py:1338-1362 | exactly the approved action is executed, as the next step, with its own tool and arguments |
| AgentRun.AgentService.RunApproved | apps/api/app/services/agent_react.py:1338-1370 | after an approved action the run goes on within its limit, or stops at it |
| AgentRun.AgentService.SpawnTurn | apps/api/app/services/agent_react.py:1852-2016 | a delegation uses exactly one step number, whether refused or run |
| AgentRun.AgentService.AutoFinish | apps/api/app/services/agent_react.py:1727-1765 | an automatic finish uses the following number and leaves the loop able to skip it |
| AgentRun.AgentService.Dispatch | apps/api/app/services/loop/dispatch.py:24-52 | the run pauses exactly for a decision that needs approval, executes exactly the operation of a decision routed to execution, and nothing for any other |
| AgentRun.AgentService.OneTurn | apps/api/app/services/agent_react.py:1375-1775 | one iteration ends settled, raised, or at the head with its number used, and one more if auto-finish took it |
| AgentRun.AgentService.RunLoop | apps/api/app/services/agent_react.py:1305-1782 | whatever fails or raises in whichever place of an iteration, planning holds at the head of each, numbers are used without gap or repeat, every transition is allowed, and the run ends settled or with an exception that can still fail the task |
| AgentRun.AgentService.PrepareContract | apps/api/app/services/agent_react.py:1068-1171 | a run goes on only with a locked contract; otherwise the task is failed, or awaits a clarification, or compiling it raised and the row is left running |
| AgentRun.AgentService.Prepare | apps/api/app/services/agent_react.py:369-1034 | the first stage that does not pass decides whether the run is settled or its row left running; nothing is executed before the loop |
| AgentRun.AgentService.RefuseRecovery | apps/api/app/services/agent_react.py:354-368 | a claimed task with an operation in flight is failed, nothing executed, the journal kept |
| AgentRun.AgentService.Claim | apps/api/app/services/agent_react.py:329-350 | a claim takes the row exactly when the conditional update matches |
| AgentRun.AgentService.Run | apps/api/app/services/agent_react.py:207-245 | a whole run happens exactly on a queued task; it leaves the row running exactly if the workspace did not open, or the preparation raised with no operation in flight and no earlier stage settled the row; with an operation in flight it fails the task and does nothing else |
| AgentRun.RunWithFailedScan | apps/api/app/services/agent_react.py:1110-1134 | an input of that kind, run: a published task whose repository cannot be scanned while its contract is compiled is left running with nothing done |
| HostPolicies.IntersectHostPolicies | apps/api/app/domain/authority_token.py:91-101 | the nested loops compute the intersection, over sets in any order |
| HostPolicies.IntersectionIsConjunction | apps/api/app/domain/authority_token.py:55-60 | a host is permitted by the intersection exactly when both policies permit it |
| HostPolicies.IntersectionCommutes | apps/api/app/domain/authority_token.py:91-101 | the intersection is commutative |
| HostPolicies.IntersectionStable | apps/api/app/services/agent_react.py:431-444 | intersecting again with the ceiling changes nothing, so a resumed task keeps its hosts |
| HostPolicies.CoversTransitive | apps/api/app/domain/authority_token.py:55-60 | exact-or-dot-suffix matching is transitive |
| HostPolicies.CoversLinear | apps/api/app/domain/authority_token.py:55-60 | two allowed names that cover one host are related themselves |
| Authority.ResolveNarrows | apps/api/app/services/agent_react.py:426-444 | a skill leaves exactly what both the request and the skill allow, and resolving again gives the same grant |
| Authority.DelegateNarrows | apps/api/app/services/agent_react.py:1907-1937 | a child's capabilities and reachable hosts are within its parent's |
| Authority.DescendantWithinAncestors | apps/api/app/services/agent_react.py:1907-1937 | at any depth of delegation a descendant stays within each of its ancestors |
| Authority.SkillBoundsTree | apps/api/app/services/agent_react.py:426-444 | a skill on the root bounds the whole tree below it |
| Authority.NetworkedHaveDestination | apps/api/app/services/agent_react.py:1938-1951 | a delegated agent with network capabilities has a destination its root may reach |
| Contract.ParseFormat | apps/api/app/services/contract.py:811-813 | reading a criterion id undoes formatting it |
| Contract.FormatInjective | apps/api/app/services/contract.py:804-806 | different criteria have different ids |
| Contract.RemapIds | apps/api/app/services/contract.py:808-822 | the new ids of a check are those of the surviving texts it pointed at, and the last required criterion |
| Contract.MergeRequiredCriteria | apps/api/app/services/contract.py:797-825 | required criteria come first, the rest follow up to eight, and only the mappings of the checks change |
| Contract.RenumberingKeepsMeaning | apps/api/app/services/contract.py:797-825 | a check points at a surviving text afterwards exactly if it did before, the last required criterion apart; every new id is in range |
| Contract.MergeRequiredChecks | apps/api/app/services/contract.py:777-794 | the user's first forty checks are appended with their own ids and their files added to the artifacts; an invalid one raises |
| Contract.AllMergedUpToForty | apps/api/app/services/contract.py:783 | every check of the user is merged if and only if there are at most forty |
| Contract.DeduplicateChecks | apps/api/app/services/contract.py:628-642 | identities stay in order of first occurrence, each once, with the mappings of all its repetitions |
| Contract.DeduplicationKeepsCoverage | apps/api/app/services/contract.py:628-642 | what is mapped under an identity is the same before and after |
| Contract.EffectiveChecks | apps/api/app/services/contract.py:645-675 | discovered gates are merged into the last check of their target or appended, then redundant checks are pruned |
| Contract.GatesKeepChecks | apps/api/app/services/contract.py:655-674 | no proposed check is lost or changed by the gates, its mapping apart, which only grows |
| Contract.GatesArePresent | apps/api/app/services/contract.py:655-674 | the targets afterwards are those of the proposal and of the discovered gates |
| Contract.Prune | apps/api/app/services/contract.py:678-714 | what remains is the checks in order without the redundant ones, and only behind a complete test gate |
| Contract.GateSurvivesIff | apps/api/app/services/contract.py:678-714 | a licensing gate survives exactly if it is not a redundant file check; a command always does |
| Contract.GateCanBePruned | apps/api/app/services/contract.py:704-712 | a gate for which the pruning is licensed and then removes it |
| Contract.PruningKeeps | apps/api/app/services/contract.py:693-713 | user checks, test commands and discovered commands are never pruned |
| ContractCompiler.DeterministicIssues | apps/api/app/services/contract.py:850-936 | an issue is reported exactly when what it says holds of the proposal |
| ContractCompiler.CommandIssues | apps/api/app/services/contract.py:889-912 | command faults and the missing exec capability are reported for exactly the commands concerned |
| ContractCompiler.Judge | apps/api/app/services/contract.py:256-277 | acceptance implies no deterministic issue; without adjudication the critic accepted and raised nothing; a question is asked exactly when not accepted |
| ContractCompiler.NoIssueLost | apps/api/app/services/contract.py:260-261 | the bound on the issue list never hides that there is one |
| ContractCompiler.Repair | apps/api/app/services/contract.py:224-383 | at most three rounds, always a verdict; the draft comes from one of the replies and carries a hash exactly if accepted |
| ContractCompiler.Compile | apps/api/app/services/contract.py:176-383 | when compilation raises or gives no draft; otherwise the draft comes from a merged and pruned reply, and a hash means: every criterion substantiated by a contract check, required criteria first, every user check that was read retained, no deterministic issue, and the automatic limits kept |
| ContractCompiler.LockedContractIsSound | apps/api/app/services/contract.py:224-308 | the same of every outcome of the repair loop: only an accepted draft is hashed, and it is sound |
| ContractCompiler.DraftKeepsUserInput | apps/api/app/services/contract.py:433-450 | every draft, accepted or not, starts with the required criteria and retains the user's checks |
| ContractCompiler.ContractChecksOfADraft | apps/api/app/services/contract.py:645-794 | merging, gates and pruning neither lose nor repeat a check of the user: a draft's contract checks are those and the others |
| ContractCompiler.RequiredChecksRetainedIff | apps/api/app/services/contract.py:777-794 | a draft retains every check it is required to if and only if there are at most forty |
| ContractCompiler.FixRevisionRetainsAllIff | apps/api/app/services/task.py:396-401 | the draft of an implementation fix retains every contract check of the delivery it revises if and only if that has at most forty |
| ContractCompiler.PublicationRetainsAll | apps/api/app/services/task.py:124-142 | a publication, with at most eight commands and thirty-two files, never has a check too many |
| ContractCompiler.FullPublicationOverflowsIff | apps/api/app/services/task.py:124-142 | the contract of a publication with eight commands and thirty-two files holds more than forty contract checks exactly if one of them is not the user's |
| ContractCompiler.LockedFullPublicationOverflows | apps/api/app/services/contract.py:224-308 | and without discovered gates every such contract that is locked holds one; if no two checks are alike, so does the delivery |
| ContractCompiler.FullPublicationLosesACheck | apps/api/app/services/task.py:396-401 | such deliveries exist, and whatever the models answer to the implementation fix of one, a check is dropped |
| Contract.CompletedKeepsDistinct | apps/api/app/services/completion.py:38-65 | filling the mappings and joining checks of one definition keeps every check if no two are alike |
| ContractCompiler.DraftFitsItsSchema | apps/api/app/schemas/contract.py:95-104 | merging and adding gates never overflows the limits of the draft, so building it cannot raise |
| JsonScan.FindSpans | apps/api/app/services/contract.py:1168-1195 | the loop over depth, start, string and escape flags computes the scanner's spans, all in bounds |
| JsonScan.SpansAreMatchedAndDisjoint | apps/api/app/services/contract.py:1174-1195 | on every input the spans run from a brace to its matching one, in order, without overlap |
| JsonScan.EveryMatchedSpanIsFound | apps/api/app/services/contract.py:1174-1195 | and they are all such spans |
| JsonScan.ObjectIsTheOnlySpan | apps/api/app/services/contract.py:1174-1195 | an object in prose without quotes and braces is the one span, with exactly its text, however its strings are escaped |
| JsonScan.FencedObjectIsTheOnlySpan | apps/api/app/services/contract.py:1168-1195 | and so it is after cleaning and stripping a reply that wraps the object in fences, if the object's own text holds none |
| JsonScan.ObjectSurvivesIff | apps/api/app/services/contract.py:1168-1195 | some span of the cleaned reply has the object's own text if and only if that text holds no fence |
| JsonScan.QuotedFenceIsLost | apps/api/app/services/contract.py:1169 | an object that quotes a fence in a string is never among the spans, whatever prose is around it |
| JsonScan.ExtractJson | apps/api/app/services/contract.py:1168-1205 | the whole cleaned text if it parses, else the last span that parses as an object |
| JsonScan.ExtractionFindsTheObject | apps/api/app/services/contract.py:1168-1205 | for any prose around one object without a fence in its own text, fences around it included, the spans give what the parser makes of that object |
| JsonScan.CleaningIsFaithfulIff | apps/api/app/services/contract.py:1169 | cleaning leaves a text alone if and only if it holds no fence |
| Patches.DiffLeadsToWork | apps/api/app/services/changeset.py:271-343 | the patch of a workspace fits its base and leads exactly to the workspace |
| Patches.ReverseUndoes | apps/api/app/services/changeset.py:364-381 | a patch that fits can be reversed and the reversal restores the tree |
| ChangeSets.StepKeepsInv | apps/api/app/services/task.py:330-796 | an operation, its commit succeeding or raising, keeps the invariant over all tasks and the tree if and only if it is not an apply or undo whose refresh raises after its commit |
| ChangeSets.OneTreeManyTasks | apps/api/app/services/task.py:692-796 | on every run without such a refresh at most one task is applied, no superseded one is, and the source is the head with exactly the applied patch |
| ChangeSets.RevisionsAreConsecutive | apps/api/app/services/task.py:386-455 | the revisions of a session are numbered from one without gap or repetition |
| ChangeSets.LatestIsLast | apps/api/app/services/task.py:353-354 | a revision that nothing supersedes has the highest number of its session |
| ChangeSets.LatestExistsOnce | apps/api/app/services/task.py:353-354 | every session has exactly one revision that nothing supersedes |
| ChangeSets.NextRevisionIsFree | apps/api/app/services/task.py:473-477 | the unique index over session and revision never fires for the latest revision |
| ChangeSets.RevisionNeverRaces | apps/api/app/services/task.py:473-477 | under the source lock a revision is never refused for a lost race |
| ChangeSets.RevisionReproducesDelivery | apps/api/app/services/changeset.py:181-199 | a revision starts from exactly the delivery it revises, so the seeding check cannot fail |
| ChangeSets.UndoIsAlwaysPossible | apps/api/app/services/task.py:766-796 | an applied change set can always be undone, and that restores the head |
| ChangeSets.ApplyThenUndo | apps/api/app/services/task.py:692-796 | applying makes the source the workspace, and undoing gives the source back |
| ChangeSets.ApplyStaysConsistentIff | apps/api/app/services/task.py:716-731 | apply keeps row and source together if and only if the refresh after a durable commit does not raise |
| ChangeSets.UndoStaysConsistentIff | apps/api/app/services/task.py:782-795 | the same for undo |
| ChangeSets.ChangeSetService.ApplyPatch | apps/api/app/services/changeset.py:346-381 | a patch is refused for a moved, dirty or unfitting source and then nothing changes; otherwise it is applied whole |
| ChangeSets.ChangeSetService.Apply | apps/api/app/services/task.py:692-731 | save, patch, row and commit, with the reversal of the patch when the commit raises |
| ChangeSets.ChangeSetService.Undo | apps/api/app/services/task.py:766-796 | the saved patch is reversed, and applied again when the commit raises |
| ChangeSets.ChangeSetService.Discard | apps/api/app/services/task.py:744-753 | an open change set of a finished task is discarded with its record |
| ChangeSets.ChangeSetService.CreateRevision | apps/api/app/services/task.py:330-486 | all gates in order, then the new row, the seeded workspace and the superseding link in one commit |
| ChangeParse.ParseNameStatus | apps/api/app/services/changeset.py:225-241 | the index loop stays in bounds or raises exactly on a truncated list |
| ChangeParse.ReadingUndoesPrinting | apps/api/app/services/changeset.py:225-241 | printed entries, renames and copies included, are read back |
| ChangeParse.OnlyPrintedIsRead | apps/api/app/services/changeset.py:225-241 | nothing but printed entries is accepted |
| ChangeParse.ParseNumstat | apps/api/app/services/changeset.py:244-268 | the index loop fills the dictionary, in bounds on every input |
| ChangeParse.ReadingUndoesPrintingStats | apps/api/app/services/changeset.py:244-268 | printed counts are read back, with binary files and the two-path form |
| ChangeParse.ListChanges | apps/api/app/services/changeset.py:318-330 | both listings are joined by path |
| ChangeParse.ChangesRoundTrip | apps/api/app/services/changeset.py:225-330 | parsing both listings gives back exactly the changes that were printed |
| AuditStore.BackendsNest | apps/api/app/egress_proxy/audit.py:68-116 | for every history the stream's answer is a newest part of the table's and that of memory's, within both caps; all agree while the total cap is not reached |
| AuditStore.TableIsNewest | apps/api/app/egress_proxy/audit.py:149-178 | the table keeps of each run a newest part within both caps |
| AuditStore.TableKeepsEnough | apps/api/app/egress_proxy/audit.py:149-178 | trimming one run never costs another run what a stream of the same length keeps |
| AuditStore.AuditStore.Append | apps/api/app/egress_proxy/audit.py:68-84 | every backend represents the history with the new event |
| AuditStore.AuditStore.ReadStream | apps/api/app/egress_proxy/audit.py:87-111 | paging with an exclusive cursor collects exactly the newest events of the run, whatever the batch size |
| AuditStore.AuditStore.List | apps/api/app/egress_proxy/audit.py:86-116 | the answer of each backend, oldest first |
| Revocation.RecordAgrees | apps/api/app/domain/authority_revocation.py:85-99 | on each backend a revocation keeps the purged table in agreement with the log |
| Revocation.LogGrows | apps/api/app/domain/authority_revocation.py:97 | a further revocation adds its own span and shortens none |
| Revocation.GoingBackForgetsIff | apps/api/app/domain/authority_revocation.py:155-159 | with a clock that went back, an answer is wrong exactly for runs that expired before the purge |
| Revocation.AuthorityRevocationStore.Revoke | apps/api/app/domain/authority_revocation.py:85-99 | the table of each backend after a revocation |
| Revocation.AuthorityRevocationStore.IsRevoked | apps/api/app/domain/authority_revocation.py:101-113 | a run is revoked exactly if some revocation of it has not expired, on every backend |
| Revocation.Listener.Poll | apps/api/app/domain/authority_revocation.py:115-153 | each run is told of at most once in a round, and the observed ones are the active ones that were told of |
| Revocation.ToldOnceWhileActive | apps/api/app/domain/authority_revocation.py:115-153 | a run that stays active is told of exactly once, as soon as a callback does not raise |
| Progress.RepetitionIsBounded | apps/api/app/services/progress.py:153-165 | preflight admits an action that is no write and no inspection at most its limit times in a revision, although rejected attempts are observed too and finishes are not |
| Progress.InspectionIsBounded | apps/api/app/services/progress.py:153-231 | a place is inspected at most once in a revision plus once for each attempt after which it is permitted again, by a failure or by the loop |
| Progress.WrittenFileIsKnown | apps/api/app/services/progress.py:200-207 | a file just written may not be read before a failure |
| Progress.EvidenceCountsOnce | apps/api/app/services/progress.py:208-212 | the same evidence is progress at most once in a revision |
| Progress.ProgressGuard.Observe | apps/api/app/services/progress.py:180-222 | counters, revision, evidence and exploration after an attempt, and whether it was progress |
| Progress.ProgressGuard.PermitReinspection | apps/api/app/services/progress.py:224-231 | exactly the inspections of the named path, or of all unchecked ones, are forgotten |
| Progress.ProgressGuard.constructor | apps/api/app/services/progress.py:143-151 | a resumed guard has observed the whole history, as far as it was recorded |
| Progress.ResumedIsAsStrict | apps/api/app/services/progress.py:143-178 | a resumed guard refuses every repetition the live one would refuse; what it permits although that one refuses is exactly an action over the branch cap whose branch it has explored and not exhausted |
| Progress.ResumedIsTheSame | apps/api/app/services/progress.py:143-231 | it is the live guard, the count of idle attempts apart, if every attempt was told and none changed the workspace silently or permitted re-inspection; and entirely if none was forced or changed it |
| Progress.ResumedMayPermitMore | apps/api/app/services/agent_react.py:1697-1704 | an input where it permits more: a command changed the workspace, of which the history keeps nothing |
| TaskTree.ListDescendants | apps/api/app/repositories/task.py:123-139 | on any table of parents, cycles included, the search ends with every task reachable from the root, each once, without the root |
| TaskService.ActiveMayBeCancelled | apps/api/app/services/task.py:923-930 | on every consistent row the guard on the status is exactly the policy's own |
| TaskService.TaskStore.Cancel | apps/api/app/services/task.py:921-940 | the active tasks of the subtree are cancelled, no transition raises, all other rows are untouched, and no active one is left below |
| TaskService.FirstWordDecides | apps/api/app/services/task.py:81-84 | an answer approves exactly if the first word of its lower-cased text is an approval word, for lower-casing of any alphabet |
| TaskService.PausedTask.RecordAnswer | apps/api/app/services/task.py:950-984 | a clarification, an approval, a denial or a reply changes exactly its columns, and an edited last step is sealed again |
| TaskService.PausedTask.Respond | apps/api/app/services/task.py:942-996 | the task, the pending action and the re-sealed table become what the protocol's answer step says; otherwise nothing changes |

## Left out

- Model, tool, gateway and network calls, prompts, receipts and workspaces: inputs of the model.
- A cancellation through the API between two commits of the same iteration, and a live worker wrongly judged stale: a cancellation is the end of the process, or is seen at the head of an iteration.
- AgentRun.AgentService.Run: the cancellation of the worker's own task (apps/api/app/services/agent_react.py:227-235, 1038-1046) is not one of its outcomes; like the death of the process it may come after any step and leaves the row running, which `RunProtocol.CrashAnywhere` covers.
- Database calls of a run that raise, within the loop or before it: treated as the death of the process.
- LoopPolicy: the module-level loops that fill the rule table are given as the finished table, and the reconciliation as its effect on one row, without the conditions on heartbeats that select the rows.
- AgentRun: the sub-agent's own run is one operation of its parent; the checks, evidence and verifier behind a finish are one arbitrary verdict; an iteration may raise in any of its calls or at four points between them; context budgets, model usage and the contents of receipts are not modelled; observation and reason texts are abbreviated.
- Ledger: SHA-256 over canonical JSON is a free constructor.
- HostPolicies: normalisation of host names (IDNA, IP addresses) is not modelled; hosts are taken as normalised.
- Contract: the shape coercions of a model's answer (apps/api/app/services/contract.py:477-581) before de-duplication are not modelled; what they and the schema guarantee is the type of valid proposals. Criterion ids of a check are a set.
- ContractCompiler: tokens spent and remaining are not counted, and clarifications are not carried.
- JsonScan: the JSON parser itself is an arbitrary function.
- ChangeSets: Git is modelled as a tree with per-path patches; process death between a commit and its compensation, and edits of the source by others while a change set is applied, are not modelled.
- ChangeParse: UTF-8 decoding of paths, and spellings of numbers other than decimal digits.
- AuditStore: the class keeps its sequences newest first; the source keeps them oldest first.
- Progress: the text of signatures is a value, so two kinds of signature never collide. The cap on exploration branches is not claimed as a bound on the set, since rejected attempts are added to it.
- TaskService: white space is ASCII only, in stripping an answer and in ending its first word.
- Publishing, listing, receipts, replay, settings, user interfaces and migrations: no property as hard as those above.
