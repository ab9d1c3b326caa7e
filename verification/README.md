# RootLens: a verified model

RootLens watches a set of services. It reconstructs their dependency graph from trace spans, scores
anomalies in their metrics, collects evidence about an incident, ranks hypotheses about the root cause,
and lets an operator approve one guarded remediation: restarting one pod. An offline benchmark and a
fault-injection controller measure how well it does.

This project models the deciding logic of that system in Dafny and proves what it guarantees. Code that
changes things step by step is modelled by methods, loops and classes; each is proved against a function or
predicate, and the guarantees are proved about those for all inputs, all runs or all reachable states.
`dafny verify dfyconfig.toml` checks everything.

## How it is organised

| files | what they are about |
|---|---|
| `Prelude`, `Ordering`, `Aggregates`, `Contracts` | rounding to six digits, stable sorting, permutations and grouping, maxima, the shared records |
| `RemediationPolicy`, `RemediationProtocol`, `RemediationCalls`, `RemediationService` | the remediation workflow: any number of `propose`, `reject` and `approve_and_execute` calls interleave at every `await`, may crash anywhere, and share one table |
| `RemediationSafety`, `RemediationHistory`, `RemediationProgress`, `RemediationOutcome`, `RemediationStranding`, `RemediationRecords` | what holds in every run of it: no second restart, where the evidence for a restart came from, how every call ends, which plans are never finished, and what is written down |
| `ServiceGraph`, `GraphScores` | walks, breadth-first search and the traversal queries on cyclic graphs; the graph part of the causal score |
| `Causal`, `Verifier`, `Provider`, `Pipeline` | the diagnosis: synthesis, ranking, verification, and what the result depends on |
| `CausalLaws`, `VerifierLaws`, `ProviderLaws` | what each of the three decides, said about the evidence alone |
| `IncidentMemory`, `Agents` | embeddings and priors; the investigation runner with its budgets and its chain of custody |
| `Percentiles`, `TraceGraph`, `TraceGraphLaws`, `SpanOrder`, `SpanStatus` | the one-pass graph builder, the graph it must agree with, exactly when the order of the spans matters, and which spans count as failed |
| `Statistical`, `StatisticalLaws`, `StatisticalAverages`, `Engine`, `EngineLaws` | the robust detector, its symmetries and its averages, and the two-stage anomaly engine |
| `Experiment`, `ExperimentLaws` | the experiment lifecycle, its journal and the independent check that reads the journal back |
| `Evaluation`, `EvaluationLaws`, `EvaluationMeaning` | benchmark trials under every ablation and the published metrics |

The remediation protocol is a transition system. A `World` holds the table, the receipts, the executor's log,
the calls with their program counters and locals, and a history variable `owner` that no action reads. `Next`
performs one atomic segment of one call, a new call, a crash, or an outside change. `RemediationService` is the
code itself, over a mutable table: between any two segments an arbitrary list of actions of other calls runs
(`gaps`), and every method proves that what it did is a run of the protocol.

## Where the code does less, or something else, than one might expect

- Approved plans need not finish. `RemediationSafety.StrandedIff` says exactly when a plan stays APPROVED or
  EXECUTING: its approving call died between winning the claim and its last write. Nothing repairs it then
  (`RemediationStranding.StrandedForever`), and `PlanCanStrand` is a run that gets there.
- When no current evidence names a service, the diagnosis can depend on the order of the evidence.
  `Pipeline.FallbackOrderFreeIff` gives the exact condition: no two services share the strongest prior.
  `FallbackDependsOnOrder` shows two priors that do.
- Single-agent runs skip the verifier, so an invented citation survives; `Agents.SingleAgentCustodyIff` and
  `Agents.SingleAgentKeepsInventions` say precisely when and show one.
- Spans that share an id can make the graph depend on their order. `SpanOrder.OrderFreeIff` says exactly when it
  does not: whichever of two spans with one id counts as the parent, each span that refers to that id is evidence
  for the same edge, or for none. `OrderMatters` shows three spans with two graphs; `DisagreementCanBeHarmless`
  shows two spans with one id and different services that make no difference, because nothing refers to them.
- Leaving out the statistical screen ranks the same anomalies, but can change whether the report names the
  forest as used: `EngineLaws.ScreenLosesNothing` has the condition, `DetectorsCanDiffer` an input.
- A journal that fails can hide the first error of a run. `ExperimentLaws.WhatEscapes` says for every script what
  escapes: the error of the last append that was made and raised, and only without one the first error of the run.
- A run that loses its receipt in the very last append looks complete to the check: `ExperimentLaws.AllAcceptedIff`
  has the condition, `LostReceiptIsAccepted` a journal.
- The truncation of tool calls in the investigation runner can never act: the fixed plan makes exactly the calls
  the first budget check counted (`Agents.ToolPlanFits`).

## Model

| member | source | states |
|---|---|---|
| RemediationPolicy.ProposalAllowedIff | src/rootlens/remediation/policy.py:36-76 | a proposal passes every check if and only if it restarts one pod in an allowed namespace, cites only current evidence and at least one item, and targets the top diagnosis held with confidence at least 0.35 |
| RemediationPolicy.ExecutionAllowedIff | src/rootlens/remediation/policy.py:78-125 | an execution is allowed if and only if, beyond that, a named person decided and the observed pod is ReplicaSet-owned and matches name, namespace and service |
| RemediationPolicy.NameLengths | src/rootlens/remediation/policy.py:16-17 | names of up to 63, or 253, characters are accepted and longer ones are not |
| RemediationPolicy.NameCharacters | src/rootlens/remediation/policy.py:16-17 | a DNS label is spelled with small letters, digits and inner hyphens, a resource name with inner dots as well, and anything so spelled is one |
| RemediationPolicy.LabelledIff | src/rootlens/remediation/policy.py:107-121 | a pod belongs to a service if and only if one of the three labels names it |
| RemediationProtocol.NextKeeps | src/rootlens/remediation/service.py:47-169 | every atomic action of every call keeps the ownership invariant, whatever the clock, the pod listing and the executor answer, and through crashes |
| RemediationProtocol.RunKeeps | src/rootlens/remediation/service.py:47-169 | the ownership invariant holds after every run from an initial state |
| RemediationSafety.AtMostOneRestart | src/rootlens/remediation/service.py:103-169 | in every reachable state no plan was handed to the executor twice and no plan has two receipts |
| RemediationSafety.StatusTellsHistory | src/rootlens/remediation/service.py:119-169 | the status column equals the status in the snapshot; SUCCEEDED and a stored "succeeded" receipt mean the same once the row left EXECUTING, likewise FAILED after an execution and a "failed" receipt; nothing is executed in any earlier or rejected state |
| RemediationSafety.RejectedNeverRestarted | src/rootlens/remediation/service.py:85-101 | a rejected plan was never restarted |
| RemediationSafety.RejectionStands | src/rootlens/remediation/service.py:85-101 | and never will be, however the run goes on |
| RemediationSafety.EveryRestartWarranted | src/rootlens/remediation/service.py:121-147 | every executor call is for a LOW risk pod restart approved by the caller's actor, with the investigation and the pod that were read satisfying all of the policy |
| RemediationHistory.EveryRestartObserved | src/rootlens/remediation/service.py:119-137 | every executor call goes back to two moments of the run after its approval was claimed and before it executed: one when the investigation it relied on was the latest one of the plan's incident, and a later one when the cluster's answer listed the pod that was handed over |
| RemediationSafety.ClaimSeesItsSnapshot | src/rootlens/remediation/repository.py:68-80 | no lost update: when a decision wins its claim, the stored snapshot is the one the decision was taken on, and nobody owned the plan |
| RemediationSafety.SecondClaimNeverFails | src/rootlens/remediation/service.py:142-144 | the execution claim succeeds in every reachable state |
| RemediationSafety.OneOwner | src/rootlens/remediation/service.py:119-120 | at most one call is ever past the approval claim of a plan |
| RemediationSafety.NextClimbs | src/rootlens/remediation/repository.py:58-80 | an action either leaves a row alone or strictly raises its status, and never changes what the plan is about |
| RemediationSafety.BlindWritesClimb | src/rootlens/remediation/repository.py:58-66 | the unguarded update always hits a row its caller owns, raises its status and touches no other row |
| RemediationSafety.FinalForever | src/rootlens/remediation/repository.py:58-80 | comparing any two moments of any run: a final row is unchanged, and plan id, incident, investigation, action, target and cited evidence are the same |
| RemediationSafety.StrandedIff | src/rootlens/remediation/service.py:119-169 | when every call has ended, a plan is left APPROVED or EXECUTING if and only if its approving call crashed between the claim and the last write |
| RemediationStranding.StrandedForever | src/rootlens/remediation/service.py:85-169 | once that has happened the row never changes again, whatever other calls do |
| RemediationStranding.ApprovalCanStrand | src/rootlens/remediation/service.py:119-120 | from every reachable state at rest, approving a plan that can be claimed and crashing right after the claim leaves it APPROVED with nothing running |
| RemediationStranding.PlanCanStrand | src/rootlens/remediation/service.py:47-120 | a reachable state at rest with a plan left APPROVED exists |
| RemediationRecords.DraftSays | src/rootlens/remediation/service.py:57-83 | a draft repeats the request, cites the evidence of the top hypothesis of the latest investigation, and is PROPOSED if and only if it is grounded, RECOMMENDATION_ONLY otherwise |
| RemediationRecords.DecisionSays | src/rootlens/remediation/service.py:91-98 | a decision records actor, time and reason and changes nothing the plan is about |
| RemediationRecords.ProposalAlone | src/rootlens/remediation/service.py:47-83 | an undisturbed proposal files its draft if and only if the incident is known, has a diagnosis with a hypothesis and the id is new; otherwise nothing changes |
| RemediationRecords.RejectionAlone | src/rootlens/remediation/service.py:85-101 | an undisturbed rejection is recorded if and only if the plan belongs to the incident and waits for a decision; otherwise nothing changes |
| RemediationRecords.FirstOfTheName | src/rootlens/remediation/service.py:134 | the pod that is checked is the first listed one with the name of the target |
| RemediationRecords.ReceiptsMatch | src/rootlens/remediation/service.py:148-169 | in every reachable state every receipt belongs to an executed plan and names its incident, action, namespace and target |
| RemediationProgress.ApprovalAlone | src/rootlens/remediation/service.py:103-169 | an undisturbed approval restarts the pod exactly when the plan can be claimed and diagnosis and pod are sound; then it adds one execution and one receipt and ends as the executor said; otherwise it executes nothing and ends FAILED, or changes nothing if it could not claim |
| RemediationOutcome.EndsWithinTen | src/rootlens/remediation/service.py:47-169 | under any interleaving, a call that does not crash has returned or raised after at most ten of its own segments |
| RemediationOutcome.FateSealed | src/rootlens/remediation/service.py:121-169 | under any interleaving, an approval that won its claim is where a function of its own reads and answers puts it: no other call can change its course |
| RemediationOutcome.ApprovalDecided | src/rootlens/remediation/service.py:121-169 | under any interleaving, it has ended after seven more of its segments: SUCCEEDED or FAILED as the executor answered if the investigation it read was the approved one and the pod listed as promised, and otherwise with an error and a FAILED row |
| RemediationService.Repository.Create | src/rootlens/remediation/repository.py:42-56 | inserts the row if and only if the id is new |
| RemediationService.Repository.Update | src/rootlens/remediation/repository.py:58-66 | overwrites status and snapshot of the row with that id without looking at them, and no other row |
| RemediationService.Repository.Transition | src/rootlens/remediation/repository.py:68-80 | compare-and-set on the status column: writes and returns true exactly when the stored status is the expected one |
| RemediationService.Repository.SaveAction | src/rootlens/remediation/repository.py:99-111 | appends one receipt |
| RemediationService.Service.Propose | src/rootlens/remediation/service.py:47-83 | whatever others do at its awaits, what the call does is its part of a protocol run, and the caller gets what its final position says |
| RemediationService.Service.Reject | src/rootlens/remediation/service.py:85-101 | the same for a rejection |
| RemediationService.Service.RequiredPlan | src/rootlens/remediation/service.py:171-179 | the same for the shared lookup: it suspends at the claim with the stored snapshot, or raises |
| RemediationService.Service.ApproveAndExecute | src/rootlens/remediation/service.py:103-169 | the same for an approval, whose result is SUCCEEDED or FAILED as the executor answered |
| ServiceGraph.BallIsReach | src/rootlens/topology/graph.py:24-34 | as many hops as there are nodes reach exactly what some walk reaches, cycles or not |
| ServiceGraph.GraphSays | src/rootlens/topology/graph.py:13-18 | edges lead from callers to callees, and the services are those of nodes and edges |
| ServiceGraph.DistanceIsShortest | src/rootlens/investigation/causal.py:156-161 | a path length exists exactly for reachable nodes and is the length of a shortest walk |
| ServiceGraph.DependenciesMirrorCallers | src/rootlens/topology/graph.py:24-34 | t is among the dependencies of s if and only if s is among the callers of t |
| ServiceGraph.Search | src/rootlens/topology/graph.py:36-45 | breadth-first search finds every reachable node, each with a walk of minimal length |
| ServiceGraph.Traversal.DirectDependencies | src/rootlens/topology/graph.py:20-22 | the sorted successors of a known service, an error for an unknown one |
| ServiceGraph.Traversal.Dependencies | src/rootlens/topology/graph.py:24-28 | the sorted services reachable from a known service, without itself |
| ServiceGraph.Traversal.Callers | src/rootlens/topology/graph.py:30-34 | the sorted services that reach a known service, without itself |
| ServiceGraph.Traversal.ShortestDependencyPath | src/rootlens/topology/graph.py:36-45 | a walk over observed edges of minimal length, or the error that names the missing service or path |
| GraphScores.Scores | src/rootlens/investigation/causal.py:133-165 | the dictionary scores every node of a non-empty graph, and nothing else, with criticality and consistency in [0, 1] |
| GraphScores.CountRequests | src/rootlens/investigation/causal.py:139-144 | the accumulated counter of a service is the sum of the requests on the edges into it |
| GraphScores.ConsistencyPositiveIff | src/rootlens/investigation/causal.py:152-163 | consistency is positive exactly on the affected service, its dependencies and its callers |
| GraphScores.ConsistencyDownstream | src/rootlens/investigation/causal.py:154-158 | on the affected service and its dependencies it is one over one plus the length of a shortest walk, also when a walk back exists |
| GraphScores.ConsistencyAlongEdge | src/rootlens/investigation/causal.py:156-158 | along an edge u to v at or below the affected service, c(v) is at least c(u) / (1 + c(u)) |
| GraphScores.ConsistencyUpstream | src/rootlens/investigation/causal.py:159-161 | a caller that is not reached back scores four fifths of one over one plus the length of a shortest walk to the affected service |
| GraphScores.ConsistencyWithoutAffected | src/rootlens/investigation/causal.py:152-153 | without an affected service in the graph, consistency is the share of the edges of the best-connected service |
| GraphScores.CriticalitySays | src/rootlens/investigation/causal.py:145-151 | criticality is the mean of that share and of the share of the requests of the busiest service |
| Causal.Rank | src/rootlens/investigation/causal.py:24-109 | the loops, the dictionary lookups and the in-place sort compute the declarative ranking |
| Causal.RankedIsRanking | src/rootlens/investigation/causal.py:89-109 | ranks are 1 to n, confidences are rounded and do not increase, and a positive status has support although `model_copy` checks nothing |
| Causal.RankedFrom | src/rootlens/investigation/causal.py:91-109 | every ranked hypothesis is one input hypothesis with its citations unchanged |
| Causal.PriorsMoveLittle | src/rootlens/investigation/causal.py:57-86 | for a hypothesis that cites no prior against itself, removing all historical memory lowers its combined score by between 0 and 0.035 |
| Causal.MemoryNeverSwaps | src/rootlens/investigation/causal.py:57-89 | so memory never swaps two hypotheses that are more than 0.035 apart without it |
| Causal.RankIgnoresEvidenceOrder | src/rootlens/investigation/causal.py:31-63 | the ranking is the same for every order of evidence with unique ids |
| CausalLaws.RankedSays | src/rootlens/investigation/causal.py:31-107 | every ranked hypothesis makes the claim of one that came in; its anomaly, log, change, memory and contradiction scores are the largest that its own items give, its temporal score is the share of the window left at its earliest item, its total is the published weighting with at most half taken off for contradiction, and confidence and status follow from total and input confidence |
| CausalLaws.RankedInOrder | src/rootlens/investigation/causal.py:89 | stronger hypotheses come first, equally strong ones by root cause and by id |
| CausalLaws.FromTheStart | src/rootlens/investigation/causal.py:122-130 | a hypothesis with evidence from before the window has temporal score one |
| CausalLaws.OnlyFromTheEnd | src/rootlens/investigation/causal.py:122-130 | and one whose evidence is all from the end of the window or later, or that has none, has zero |
| CausalLaws.EarlierNeverWeakens | src/rootlens/investigation/causal.py:122-130 | moving evidence to an earlier time never lowers the temporal score or the total, and changes no other ingredient |
| CausalLaws.EarlierComesFirst | src/rootlens/investigation/causal.py:64-89 | of two hypotheses alike in everything but the times of their evidence, the one with the earlier evidence scores more and is ranked first |
| Verifier.Verify | src/rootlens/investigation/verifier.py:14-50 | the loop that rebinds status and confidence, the sort and the re-ranking compute the declarative verification |
| Verifier.ReviewIdempotent | src/rootlens/investigation/verifier.py:19-46 | reviewing one hypothesis twice is reviewing it once, rounding included |
| Verifier.ReviewNeverRaises | src/rootlens/investigation/verifier.py:26-45 | a review never raises a rounded confidence and caps an unsupported one at 0.1 |
| Verifier.ReviewGrounds | src/rootlens/investigation/verifier.py:20-46 | exactly the usable citations stay, and a positive status keeps support |
| Verifier.VerifiedIsRanking | src/rootlens/investigation/verifier.py:47-50 | the output is a permutation of the reviewed input with ranks 1 to n and non-increasing confidence |
| Verifier.VerifiedGrounded | src/rootlens/investigation/verifier.py:20-28 | every citation that survives is current evidence of the incident |
| Verifier.VerifyIdempotent | src/rootlens/investigation/verifier.py:14-50 | verifying a verified list changes nothing, neither statuses nor rounded digits nor ranks |
| VerifierLaws.VerifiedSays | src/rootlens/investigation/verifier.py:19-46 | every verified hypothesis is one that came in with its usable citations in order: REJECTED at no more than 0.1 without support, WEAK at no more than half of its strongest support if some known item against it is at least as confident as all of its support, and otherwise, which is when some support is more confident than everything against it, with status and rounded confidence as they were |
| VerifierLaws.VerifiedInOrder | src/rootlens/investigation/verifier.py:47 | more confident hypotheses come first, equally confident ones by their old rank and by id |
| Provider.Synthesize | src/rootlens/investigation/provider.py:47-129 | the grouping loops, the two sorts and the fallback compute the declarative synthesis |
| Provider.Group | src/rootlens/investigation/provider.py:50-57 | the dictionary holds, in order of first mention, exactly the services with their items |
| ProviderLaws.SynthesizedSays | src/rootlens/investigation/provider.py:87-128 | with current evidence that names services, five of them or all if fewer are accused, each with id, rank, rounded score and the status that goes with it, on exactly the current items that name it, the most confident first, and with the failure mode of that one |
| ProviderLaws.SynthesizedInOrder | src/rootlens/investigation/provider.py:105-107 | different services, higher scores first and equal ones by name, with confidences that do not increase |
| ProviderLaws.LeftOutIsBehind | src/rootlens/investigation/provider.py:105-107 | no service that is left out is ahead of one that is returned |
| ProviderLaws.ScoreSays | src/rootlens/investigation/provider.py:88-104 | a score is seven tenths of the strongest current item, a sixteenth for each of up to four sources and a twentieth of the strongest prior, at most one |
| ProviderLaws.ScoreGrows | src/rootlens/investigation/provider.py:88-104 | it never falls when items, priors or sources are matched by at least as good ones |
| ProviderLaws.OneItemScores | src/rootlens/investigation/provider.py:88-104 | a single current item of confidence c scores 0.7 c + 0.0625 |
| ProviderLaws.FallbackSays | src/rootlens/investigation/provider.py:58-85 | without such evidence one weak hypothesis without a citation names a service with the strongest prior, else the affected one, else `unknown` |
| Provider.FilterDrafts | src/rootlens/investigation/provider.py:228-254 | whatever a language model returned: the citations that were not supplied are struck out and the others kept in order; a draft with support left keeps its status and confidence, and one without has a positive status replaced by REJECTED and its confidence capped at 0.2; id, root cause and failure mode are the model's |
| Pipeline.DiagnosisIgnoresOrder | src/rootlens/investigation/provider.py:50-129 | provider, ranker and verifier give the identical hypotheses, ranks, citations and confidences for every order of evidence with unique ids and a current item that names a service |
| Pipeline.FallbackOrderFreeIff | src/rootlens/investigation/provider.py:58-85 | without such an item the diagnosis is order independent if and only if no two services share the strongest prior |
| Pipeline.FallbackDependsOnOrder | src/rootlens/investigation/provider.py:58-85 | two equally strong priors of different services: another order of them gives another diagnosis |
| Pipeline.DiagnosisGrounded | src/rootlens/investigation/verifier.py:19-46 | every citation of a diagnosis is current evidence, and every positive status has one |
| Pipeline.VerifierNeverRaises | src/rootlens/investigation/verifier.py:26-50 | every verified hypothesis is one ranked hypothesis with at most the confidence the ranker gave it |
| Prelude.Round6Nearest | src/rootlens/investigation/causal.py:103 | a rounded confidence is a multiple of a millionth and no further than half of one from the exact value |
| Ordering.StrLeIff | src/rootlens/investigation/causal.py:89 | in every sort key the first character in which two strings differ decides, and a prefix comes first |
| IncidentMemory.Embed | src/rootlens/investigation/memory.py:155-167 | the in-place accumulation computes the normalised signed bag of tokens |
| IncidentMemory.EmbeddingIsUnit | src/rootlens/investigation/memory.py:164-167 | an embedding has length one, or is the zero vector |
| IncidentMemory.CosineNeedsNoClamp | src/rootlens/investigation/memory.py:170-177 | the exact cosine of two embeddings lies in [-1, 1] |
| IncidentMemory.EmbeddingIgnoresOrder | src/rootlens/investigation/memory.py:158-167 | the order of the tokens does not matter |
| IncidentMemory.PriorsAreHistorical | src/rootlens/investigation/memory.py:116-138 | memory contributes nothing but historical priors with positive confidence |
| IncidentMemory.PriorsSay | src/rootlens/investigation/memory.py:116-138 | exactly the matches with positive similarity become priors, in order, each about its service and as confident as it is similar |
| IncidentMemory.WeightSays | src/rootlens/investigation/memory.py:158-163 | the weight of a coordinate is the number of tokens that push it up less the number that push it down |
| Agents.Run | src/rootlens/investigation/agents.py:44-244 | for any tools, memory and provider output: no exit records more tool calls than the budget; a run diagnoses exactly when nothing runs out, and then reports what ranker and verifier say; in a multi-agent run every citation is a current item listed by a successful tool call |
| Agents.ToolPlanFits | src/rootlens/investigation/agents.py:55-56 | the plan makes exactly the number of tool calls that was checked against the budget |
| Agents.AssembledSays | src/rootlens/investigation/agents.py:129-132 | the evidence of a run is that of metrics, traces, logs, changes and memory in this order, and its graph the first one a tool gave |
| Agents.CallsSay | src/rootlens/investigation/tools.py:320-375 | every tool is audited under its name and agent, as successful if and only if it collected, with the ids of what it found in order |
| Agents.SingleAgentCustodyIff | src/rootlens/investigation/agents.py:186-202 | without the verifier all citations are current if and only if the provider's were |
| Agents.SingleAgentKeepsInventions | src/rootlens/investigation/agents.py:186-202 | an invented citation survives a single-agent run |
| Percentiles.PercentileBetween | src/rootlens/topology/builder.py:131-141 | a percentile lies between the two sorted values it interpolates |
| Percentiles.PercentileMonotone | src/rootlens/topology/builder.py:131-141 | a higher quantile gives no lower percentile, across interpolation boundaries |
| Percentiles.PercentileOnGrid | src/rootlens/topology/builder.py:131-141 | at the quantile k over n - 1 the percentile is the sorted value k |
| Percentiles.PercentileHalfway | src/rootlens/topology/builder.py:131-141 | half way between two such quantiles it is half way between the values |
| TraceGraph.Accumulate | src/rootlens/topology/builder.py:45-79 | the one-pass fold leaves exactly the declarative accumulators in the two dictionaries: counts, errors, distinct traces, latencies, first start and last end |
| TraceGraph.Build | src/rootlens/topology/builder.py:33-103 | the builder as written returns the graph that is defined without a loop |
| TraceGraphLaws.EdgeDescribesItsSpans | src/rootlens/topology/builder.py:106-128 | every edge counts the spans that are evidence for it, those that failed and their traces, of which there are between one and that many; failures over requests and requests over the window are its rates, and it lasts from the first start to the last end of those spans |
| SpanStatus.ErrorIff | src/rootlens/topology/builder.py:144-145 | a span counts as failed if and only if its status ends in the five letters of "error", each in either case |
| SpanStatus.PrefixedError | src/rootlens/topology/builder.py:144-145 | whatever comes before them |
| SpanStatus.NodeDescribesItsSpans | src/rootlens/topology/builder.py:81-91 | every node counts the spans that name its service, their traces and exactly those of them that failed, and its rate is the quotient |
| SpanStatus.OneMoreSpan | src/rootlens/topology/builder.py:48-52 | one more span of a service adds one span, and one error exactly if it failed |
| SpanStatus.EdgeCountsFailures | src/rootlens/topology/builder.py:70-71 | the failures of an edge are exactly its spans that failed |
| SpanStatus.OnEdgeIff | src/rootlens/topology/builder.py:54-65 | a span is evidence for an edge if and only if its parent was seen in its trace, names the caller, and the span the callee, and they differ |
| SpanStatus.NodesInOrder | src/rootlens/topology/builder.py:90 | nodes are listed by service, each once |
| SpanStatus.EdgesInOrder | src/rootlens/topology/builder.py:94 | edges are listed by caller and callee, each once |
| SpanStatus.NodesOfGraph | src/rootlens/topology/builder.py:33-103 | a front end and its two requests with STATUS_CODE_OK and STATUS_CODE_ERROR: the two nodes in every field |
| SpanStatus.EdgesOfGraph | src/rootlens/topology/builder.py:33-128 | and the one edge in every field, rates, percentiles and times included |
| TraceGraphLaws.GraphIgnoresOrder | src/rootlens/topology/builder.py:41-103 | the graph is the same for every order of the spans, if spans with one id agree about the edge of every span that refers to that id |
| SpanOrder.OrderFreeIff | src/rootlens/topology/builder.py:43-65 | and only if: two spans with one id that disagree about the edge of some span give two graphs, depending on which comes last |
| SpanOrder.OrderMatters | src/rootlens/topology/builder.py:43-65 | a child of two roots with one id: two orders of the three spans, two graphs |
| TraceGraphLaws.NodesMerge | src/rootlens/topology/builder.py:45-52 | folding two lists of spans apart and merging the node accumulators is folding them together |
| TraceGraphLaws.EdgesMerge | src/rootlens/topology/builder.py:54-79 | the same for the edge accumulators when the two lists share no trace |
| TraceGraphLaws.TraceCountsAdd | src/rootlens/topology/builder.py:98 | disjoint traces are counted once each |
| TraceGraphLaws.SpansConserved | src/rootlens/topology/builder.py:45-50 | the span counts of all nodes add up to the spans that name a service |
| TraceGraphLaws.RequestsConserved | src/rootlens/topology/builder.py:54-65 | the requests of all edges add up to the cross-service child spans |
| TraceGraphLaws.IncomingBounded | src/rootlens/topology/builder.py:48-71 | requests and failures on the edges into a service are bounded by its spans and its errors |
| TraceGraphLaws.EdgesJoinNodes | src/rootlens/topology/builder.py:57-64 | every edge joins two different listed nodes |
| TraceGraphLaws.PercentilesOrdered | src/rootlens/topology/builder.py:112-126 | on every edge 0 <= min <= p50 <= p95 <= p99 <= max over the latencies seen on it |
| Statistical.SmoothBaseline | src/rootlens/anomaly/statistical.py:65-72 | the baseline loop computes the average of the clipped samples |
| Statistical.ScoreIncident | src/rootlens/anomaly/statistical.py:75-88 | the incident loop judges every sample against the running average before it |
| Statistical.Score | src/rootlens/anomaly/statistical.py:45-113 | the detector as written computes the declarative result, or the error for too few baseline samples or no incident sample |
| StatisticalAverages.ScoredSays | src/rootlens/anomaly/statistical.py:45-113 | the outcome of a series in terms of its samples: mean, median and median deviation, the baseline average as a weighted sum, every row standardised against median, mean and the weighted sum of what came before, the score as the largest of the three over six, the earliest highest row as the peak, the three maxima and the score at every time |
| StatisticalAverages.SmoothIsWeighted | src/rootlens/anomaly/statistical.py:65-72 | after n samples the baseline average is the sum of alpha (1 - alpha)^(n-1-k) times the clipped sample k, and (1 - alpha)^(n-1) times the first |
| StatisticalAverages.RunningIsWeighted | src/rootlens/anomaly/statistical.py:75-88 | the average a sample is judged against is such a sum over the baseline average and the samples before it |
| StatisticalAverages.LastCountsAlpha | src/rootlens/anomaly/statistical.py:72-88 | raising the last value by d raises either average by exactly alpha d |
| StatisticalAverages.ClipSays | src/rootlens/anomaly/statistical.py:136-141 | a clipped value is within three scales of the centre and moved no further than it had to be |
| StatisticalAverages.MedianSplits | src/rootlens/anomaly/statistical.py:56-57 | at most half of the values are below the median and at most half above it |
| StatisticalAverages.InTimeSays | src/rootlens/anomaly/statistical.py:47-51 | the samples used are the finite ones, by time, and in their order where times are equal |
| StatisticalAverages.RefusedIff | src/rootlens/anomaly/statistical.py:52-57 | a series is refused if and only if there are too few finite baseline samples or no finite incident sample |
| StatisticalLaws.ScoreFlips | src/rootlens/anomaly/statistical.py:45-113 | negating every sample leaves score, onset, peak time, score curve and the three maxima unchanged, negates the signed quantities, and flips the direction unless the peak equals the median |
| StatisticalLaws.DeviationFlips | src/rootlens/anomaly/statistical.py:60 | the standard deviation of the negated baseline is that of the baseline |
| StatisticalLaws.SmoothInHull | src/rootlens/anomaly/statistical.py:65-72 | the baseline average stays in the hull of the first sample and the centre plus or minus three scales |
| StatisticalLaws.SmoothIgnoresOutliers | src/rootlens/anomaly/statistical.py:136-141 | with centre and scale fixed, how far beyond the band a later sample lies makes no difference |
| StatisticalLaws.OnsetIff | src/rootlens/anomaly/statistical.py:90-92 | an onset exists if and only if the peak score is at least 0.5, and it is never later than the peak |
| StatisticalLaws.ScoreIsSaturatedMaximum | src/rootlens/anomaly/statistical.py:84-103 | the score is the largest of the three reported maxima over 6, capped at 1 |
| Engine.ForestScoreIsNearest | src/rootlens/anomaly/engine.py:131-137 | the forest score used is that of an entry no other entry is nearer to the peak than, and missing only if there is no entry |
| Engine.GroupByService | src/rootlens/anomaly/engine.py:53-56 | the nested dictionary holds exactly the series of the services in scope, by signal |
| Engine.Analyze | src/rootlens/anomaly/engine.py:28-128 | the engine as written reports what the two-stage definition says: anomalies, counts, warnings, references and detectors |
| EngineLaws.ScreenLosesNothing | src/rootlens/anomaly/engine.py:44-61 | the engine that runs the forest for every service ranks exactly the same anomalies; the condition under which it names the forest and the other does not |
| EngineLaws.DetectorsCanDiffer | src/rootlens/anomaly/engine.py:44-61 | an input on which the two reports name different detectors |
| EngineLaws.AnalysisIgnoresOrder | src/rootlens/anomaly/engine.py:38 | series with unique service and signal can come in any order |
| EngineLaws.RankingInOrder | src/rootlens/anomaly/engine.py:95-107 | ranks are 1 to n, scores descend, ties go by onset, service and signal |
| EngineLaws.TiesInOrder | src/rootlens/anomaly/engine.py:95-103 | equal scores are ordered by onset, the earlier first, then by service and signal |
| EngineLaws.RankedIsExplained | src/rootlens/anomaly/engine.py:62-94 | every ranked anomaly is an admitted result that reaches the minimum score |
| EngineLaws.RankedDescribes | src/rootlens/anomaly/engine.py:62-94 | every ranked anomaly reports an admitted result in every field, with the forest score of an entry nearest to its peak, and seven tenths of the one score and three tenths of the other, or the statistical score alone |
| EngineLaws.ExplainedIsRanked | src/rootlens/anomaly/engine.py:62-94 | every admitted result that reaches the minimum score is ranked |
| EngineLaws.AdmittedIff | src/rootlens/anomaly/engine.py:49-52 | with the statistical detector, a series is admitted if and only if its statistical score is at least 0.5 |
| EngineLaws.ScreenSays | src/rootlens/anomaly/engine.py:38-42 | every series is either a result or a warning that names it and its error, in the order of the list |
| EngineLaws.SeriesInOrder | src/rootlens/anomaly/engine.py:38 | which is by service and signal |
| EngineLaws.SignalsAre | src/rootlens/anomaly/engine.py:53-56 | the forest of a service sees, for each signal, the last series with a result |
| EngineLaws.AnalysisSays | src/rootlens/anomaly/engine.py:108-128 | the report counts the results, lists every reference once, and names the forest as used when it gave scores for an admitted service and as skipped when there was one and it gave none |
| Experiment.Journal.Append | experiment_controller/ground_truth.py:14-24 | an append adds one line at the end and sets both modes; one that fails before its line is written adds nothing and has set neither mode, the directory's, or both |
| Experiment.Controller.Run | experiment_controller/controller.py:39-78 | for every way the calls and appends can end: what is done, in which order, what is journalled, and what is returned or raised; once anything is journalled the modes are the owner-only ones |
| Experiment.Verify | scripts/verify_ground_truth.py:12-34 | accepts if and only if the modes are right, the number of experiments is the expected one and each shows the complete lifecycle; otherwise the first complaint that applies is raised |
| ExperimentLaws.DeletedOnceIffApplied | experiment_controller/controller.py:57-69 | for every point of failure or cancellation, delete is attempted exactly once if apply returned, and never otherwise |
| ExperimentLaws.RecoveredOnlyAfterCleanup | experiment_controller/controller.py:46-78 | RECOVERED is journalled if and only if apply, injection, sleep and delete succeeded in that order and its append wrote its line; a receipt is given if and only if that append did not fail either |
| ExperimentLaws.WhatEscapes | experiment_controller/controller.py:39-78 | for every script: the error of the last append that was made and raised escapes; if no append raised, the first error of the run; and if nothing raised, the run gives its receipt |
| ExperimentLaws.FirstErrorEscapesIff | experiment_controller/controller.py:53-69 | so the first error of a run is the one raised if and only if no append that was made raised, or the last one that did raised the same error |
| ExperimentLaws.JournalCanHideErrors | experiment_controller/controller.py:53-56 | a run whose first error is not the one raised |
| ExperimentLaws.CompleteIff | scripts/verify_ground_truth.py:27-33 | one run's journal shows the complete lifecycle if and only if it gave a receipt or lost it in the last append |
| ExperimentLaws.JournalOf | experiment_controller/controller.py:39-78 | what a run leaves in a journal that does not fail, event by event, for every way its calls can end |
| ExperimentLaws.OwnerOnly | experiment_controller/ground_truth.py:15-18 | the two modes are 0700 and 0600 |
| ExperimentLaws.ComplaintIff | scripts/verify_ground_truth.py:15-33 | which complaint a journal that is not accepted draws |
| ExperimentLaws.AcceptsIff | scripts/verify_ground_truth.py:22-33 | over any interleaving of any number of runs: accepted if and only if the expected number of runs recorded something and each of those completed |
| ExperimentLaws.AllAcceptedIff | scripts/verify_ground_truth.py:22-33 | when all started runs are expected and a failed append leaves no line, accepted if and only if every run returned a receipt |
| ExperimentLaws.LostReceiptIsAccepted | scripts/verify_ground_truth.py:22-33 | a journal that is accepted although its run lost its receipt |
| Evaluation.MultiRank | evaluation_harness/runner.py:116-133 | the grouping loop and the sort compute the declarative predictions and claims |
| EvaluationMeaning.PredictionsAreNamed | evaluation_harness/runner.py:119-132 | the proxy predicts exactly the named services, each once |
| EvaluationMeaning.PredictionsInOrder | evaluation_harness/runner.py:123-131 | the one with the most confidence in all first, then the one with more sources, then by name |
| EvaluationMeaning.ClaimsOfFirstThree | evaluation_harness/runner.py:132 | and claims every item that names one of the first three, in order |
| Evaluation.RunRootlens | evaluation_harness/runner.py:136-191 | a trial under any ablation as written computes the declarative trial |
| EvaluationMeaning.AblationHides | evaluation_harness/runner.py:194-204 | an ablation hides exactly the items of its source |
| EvaluationMeaning.ReplaySays | evaluation_harness/runner.py:143-166 | a replayed candidate cites every current item of its service in order, with three quarters of the strongest confidence and 0.06 for every source, at most one |
| EvaluationMeaning.ReplayInOrder | evaluation_harness/runner.py:166 | there is one for every service that current items name, in the order of the names |
| EvaluationMeaning.TrialSays | evaluation_harness/runner.py:136-191 | a trial records the root causes of the ranked and, unless ablated, verified candidates, the citations of the first three, one call for every source left and all ids of the case; the single-agent ablation asks the proxy about the metrics, with one call |
| Evaluation.AggregateTrials | evaluation_harness/runner.py:207-237 | the sums over the trials are the declarative metrics; no trial is an error |
| EvaluationMeaning.ReportCounts | evaluation_harness/runner.py:211-237 | the accuracies are the parts of the trials whose first prediction, or one of the first three, is right; latency and tool calls are averages |
| EvaluationMeaning.PrecisionCounts | evaluation_harness/runner.py:215-230 | precision is the part of all claims that is valid, each id once for a trial, the hallucination rate the rest, and both are zero without a claim |
| EvaluationLaws.TrialClaimsHold | evaluation_harness/runner.py:136-191 | under every ablation, for every case with unique evidence ids, a trial claims no id twice and none that is not in the case |
| EvaluationLaws.NoHallucinationIff | evaluation_harness/runner.py:215-230 | the hallucination rate is zero if and only if every claim of every trial is valid and unrepeated, and then precision is one as soon as anything is claimed |
| EvaluationLaws.ReplaysNeverHallucinate | evaluation_harness/runner.py:136-237 | any set of such trials, in any mixture of ablations, reports hallucination rate 0 and precision 1 whenever anything is claimed |
| EvaluationLaws.Top1AtMostTop3 | evaluation_harness/runner.py:211-226 | top-1 accuracy is at most top-3 accuracy, both in [0, 1] |
| EvaluationLaws.P95IsPercentile | evaluation_harness/runner.py:220-228 | at least 95 in 100 latencies are at most the reported one, and fewer than 95 in 100 are below it |

## Left out

- HTTP clients and retries, the Loki, Tempo, Prometheus and Kubernetes adapters, SQL sessions, the web API and user interface, authentication, configuration, rendering and infrastructure scripts: plumbing around the modelled logic.
- `latest` in the remediation service and repository: a read-only query.
- A database error at an `await`: it ends a call like a crash does and is covered by the crash action; a create with a used id raises.
- Whether the investigation is still the latest one at the instant of execution: the code reads it earlier and promises nothing about that instant.
- The agent runs, usage records, warnings, durations and result sizes of an investigation, and the description, component and prediction texts of a hypothesis: no decision reads them.
- Length limits and range checks of the record validators, other than the ones the types `Unit` and `Detector` and the status rule carry: a rejected record is an exception of its own. In particular a forest score outside [0, 1] would be rejected there; the engine is modelled without that rejection.
- Floating-point rounding: scores, times and latencies are real numbers, `round(x, 6)` is exact rounding to the nearest millionth with ties to even, and 0.95 n is computed exactly. Infinities and not-a-number appear only as sample values, which the detector filters out.
- Identifiers: UUIDs are natural numbers compared as such, and the hash of a token is a given index and sign.
- The isolation forest itself: a function from the series of a service to a list of scores by time. That it sorts the signals before it reads them is why its result does not depend on the order of the dictionary.
- The standard deviation and the norm of an embedding are given as the nonnegative number with the right square; square roots are not computed.
- `str.upper` is modelled for ASCII letters, and the text comparison is by code point.
- Partial writes of a journal line and a file that cannot be parsed: appends are atomic, before or after an error.
- The manifest, its digest and the dry run of the experiment controller, and the catalogue of faults.
- Methods A to D of the benchmark (D only applies the modelled multi-agent ranking to the current evidence; B adds an invented id on purpose) and the construction of the data set; the stopwatch is a parameter of a trial.
- The window, the evidence references and the warnings of a service graph, which the builder copies.
- IncidentMemory.Embed: takes the tokens with their index and sign, and the norm as an argument that must have the right square, because splitting, hashing and the square root are library calls.
- Statistical.Score: takes the standard deviation as an argument that must have the right square, because the library computes a square root.
- TraceGraph.NormalizeEdge: requires timestamps and at least one request, which the source asserts; every edge the fold creates has them.
- TraceGraphLaws.PercentilesOrdered: says nothing about first and last times, because spans may end before they start.
- RemediationService.Service.ApproveAndExecute: one call is executed at a time over arbitrary gaps of other calls' actions; its own crash is an action of the protocol, not a path of the method.
