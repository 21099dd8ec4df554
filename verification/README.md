# CloudOracle: a verified model

This project models four parts of CloudOracle and proves what they promise.

**The cost of a Terraform plan** (`Breakdowns`, `Estimates`, `Estimators`, `GcpCompute`,
`AzureCompute`, `CloudSql`, `CloudNat`, `Ec2`, `ChangePricing`, `ChangeOrder`,
`CostDiffs`, `ReportLaws`, `FilingLaws`, `ChangeLaws`, `EstimatorLaws`, `PlanOrder`,
`PlanReversal`, `NoteTable`, `SkipBuckets`, `TrailingSkips`). Each change of a plan is
priced before and after; the difference carries a breakdown; the changes are sorted by the
size of their delta, filed into slices, counted and summarized. Money is exact (`real`).
Main results: the total of a plan is the sum of every line of every change, failures and
skips included; the slices partition the changes, and exactly when they do for arbitrary
estimates; what every slice, count and note of a report is, read off the estimates; what
an estimate comes to, read off the attributes and the price tables; the top movers are the
top; the order of the plan does not matter; a plan run backwards gives the mirror image of
its report, line for line and in the same order.

**The supervisor agent and its guardrails** (`Agent`, `WorkerLaws`, `WorkerRuns`,
`AgentLaws`, `TurnRuns`, `Briefs`, `PythonText`, `Scanner`, `DottedChains`, `Grounding`,
`FigureValues`, `FigureScans`, `Guardrails`). The language model and the tools are
arbitrary functions of the call number and the input, so every sequence of replies, errors
included, is covered. Main results: the caps on tool executions, dispatches, decisions and
model calls hold on every run of every thread; every run of a worker and every turn is
told exactly from outside, request by request and call by call; the synthesizer reads this
turn only; a validated answer that is delivered states only figures near a number that one
of this turn's tools returned to a dispatched specialist.

**The pricing cache** (`CacheKeys`, `CacheProtocol`, `DiskCache`, `CacheCalls`,
`CacheTransparency`). Many processes share a directory; every file-system step may fail,
processes may die, steps interleave. Main results: an invariant of every reachable state
of every run (no torn files, no expired hits, no temp file with two owners); exactly when
the cache cannot be told from a deterministic source; exactly which keys can be parsed
back; a single call, as coded, is a run of the protocol.

**Retries and the pull-request comment** (`Backoff`, `RetryTransport`, `Comments`,
`UpsertRuns`). Main results: 64-bit wrap-around in the backoff shift does no harm under a
condition the defaults meet, and every wait of a request is the right one; every response
but the returned one is closed once; over any history of runs, failures and other people's
comments, one marked comment is kept and always the same one.

`Sequences` and `GoStrings` hold shared vocabulary. A loop of the source is a `method`
with that loop, proved equal to a function that specifies it; the laws are lemmas about
these functions.

## Where the code and its documentation disagree

- `_run_react` says that on an exhausted iteration budget it returns whatever the last AI
  message said. The last message is then always a tool message, so it returns nothing
  (`ExhaustedSaysNothing`; `LastWordsAreLost` is such a run).
- `ask_supervisor` takes the last non-empty AI text of the thread for the synthesizer's
  output. When the synthesizer's reply is empty and no worker was dispatched, that is the
  answer of an earlier turn (`TurnAnswer` says exactly when, `StaleAnswer` is such a turn).
- Every comment must carry the marker, and `capBody` may strip it: `MarkerSurvivesExactly`
  says exactly when, `OversizeBodyLosesMarker` is such a body, and `LostMarkersOverRuns`
  and `LostMarkersPost` say what becomes of the comments.
- The cache is said to return what its source returns. It does exactly when requests that
  share a key have the same answer (`TransparentExactly`); newlines in filter values and
  equals signs in filter keys make different requests share one (`NewlineCollides`,
  `EqualsCollides`, `NewlineBreaksTransparency`).
- The skip summary counts a failed estimate as an unsupported type when its error text
  mentions that word, a resource's address included (`FailuresExactly` says exactly when,
  `FailureMiscounted` is such a plan).
- The fallback is meant to show grounded data only, but its reason quotes the rejected
  figures or the judge model's words (`FallbackQuotesExactly` says exactly when it quotes
  figures, `BoastIsQuoted` is such a run).
- Skipped changes are said to trail the priced ones, and the top movers to be the leading
  slice of the changes. The stable sort keeps a skipped change before a later priced one
  that costs nothing (`SkipsTrailExactly` and `MoversLeadExactly` say exactly when,
  `SkipLeadsReport` is such a plan).
- A Retry-After of 9223372037 seconds or more overflows the 64-bit duration and may turn
  negative, so the transport does not wait (`SecondsExactly`, `SecondsOverflow`).
- A currency-code figure right after a point ("1.2.3 USD") is not among the plain numbers
  of its own text (`PointBreaksSelfGrounding`; `UsdIsNumberExactly` says exactly when,
  `UsdIsNumberByParity` in terms of points).

## Model

| member | source | states |
|---|---|---|
| Breakdowns.NegateBreakdown | internal/pricing/change.go:325-334 | the loop returns every line negated |
| Breakdowns.NegatedCharges | internal/pricing/change.go:98-102 | negating a breakdown negates its sum and its charge to every component, repeated names included |
| Breakdowns.MergeDeltaBreakdown | internal/pricing/change.go:345-364 | the merge with its running index returns the delta breakdown, for any two breakdowns, repeated names included |
| Breakdowns.DeltaPerComponent | internal/pricing/change.go:336-344 | for every component the delta breakdown charges after minus before |
| Breakdowns.DeltaTotal | internal/pricing/change.go:345-364 | the delta breakdown adds up to the difference of the two totals |
| Breakdowns.DeltaTelescopes | internal/pricing/change.go:345-364 | the delta A to B plus the delta B to C charges each component what A to C does |
| Breakdowns.DeltaReversed | internal/pricing/change.go:345-364 | swapping the two states negates every component's charge and the sum |
| Breakdowns.DeltaOrder | internal/pricing/change.go:342-344 | the components come in the order of after, then those only before has, each once, by first occurrence |
| Breakdowns.DeltaLine | internal/pricing/change.go:351-363 | each line of after keeps its amount, except that the last line of a name absorbs all that before charged to it |
| GcpCompute.EstimateGCPComputeInstance | internal/pricing/gcp_compute.go:33-90 | the estimate or error, with its lines, balanced total, confidence and caveats, of a GCP instance |
| AzureCompute.EstimateAzureVirtualMachine | internal/pricing/azure_compute.go:33-90 | the estimate or error of an Azure VM, likewise |
| CloudSql.EstimateGCPSQLInstance | internal/pricing/gcp_sql.go:33-81 | the estimate or error of a Cloud SQL instance, likewise |
| CloudSql.RegionalDoubles | internal/pricing/gcp_sql.go:65-69 | regional availability doubles the total and the charge to every component, adds one caveat, and changes no error |
| CloudSql.CustomTierRoundTrip | internal/pricing/gcp_sql.go:106-118 | a custom tier name printed from a machine parses back to that machine |
| GoStrings.SplitJoin | internal/pricing/gcp_sql.go:107 | splitting at the separator undoes joining fields without it |
| GoStrings.AtoiItoa | internal/pricing/gcp_sql.go:113-114 | a printed number in 64-bit range is read back |
| CloudNat.EstimateGCPRouterNAT | internal/pricing/gcp_nat.go:26-52 | the standing cost of a NAT gateway: its manual addresses, or zero with no line |
| Ec2.EstimateEC2 | internal/pricing/ec2.go:50-92 | the estimate or error of an EC2 instance over any price source |
| EstimatorLaws.GcpBill | internal/pricing/gcp_compute.go:33-90 | an estimate exactly when the type and the disk have rates, else which error; 730 hours at the rate and multiplier of its own region, or the plan's, plus its disk, with confidence and caveats |
| EstimatorLaws.AzureBill | internal/pricing/azure_compute.go:33-90 | the same of an Azure machine |
| EstimatorLaws.SqlBill | internal/pricing/gcp_sql.go:33-81 | which databases have an estimate, and the bill of a zonal one, ten gigabytes unless the plan says more |
| EstimatorLaws.PredefinedHourly | internal/pricing/gcp_sql.go:86-135 | a predefined tier printed for a number of cores costs them and 3.75, 6.5 or 0.9 gigabytes for each |
| EstimatorLaws.CustomHourly | internal/pricing/gcp_sql.go:86-118 | a custom tier printed for a machine costs its cores and its memory |
| EstimatorLaws.NatBill | internal/pricing/gcp_nat.go:26-52 | 730 hours of each reserved address |
| EstimatorLaws.Ec2Priceable | internal/pricing/ec2.go:50-92 | an estimate exactly when region and type are given and both queries have one product in the right unit |
| EstimatorLaws.Ec2Bill | internal/pricing/ec2.go:50-92 | 730 hours of the quoted rate and the quoted rate of each gigabyte of a sized root volume, low confidence and the caveats |
| ChangePricing.MergeNotes | internal/pricing/change.go:292-308 | the notes of both states, each once, in first-seen order |
| Sequences.FirstSeenOrder | internal/pricing/change.go:289-308 | first-seen lists hold the same elements, ordered by first occurrence |
| ChangePricing.EstimateChange | internal/pricing/change.go:46-141 | the estimate of a change is the difference of its two states, an absent one costing nothing; errors before skips, before before after |
| ChangePricing.ChangeIsSound | internal/pricing/change.go:21-44 | delta is after minus before and the sum of the lines; skips cost nothing; no-op, read and unknown actions are always skipped; confidence is known |
| ChangeLaws.ActionExactly | internal/iac/terraform.go:91-105 | which words of a plan make which action |
| ChangeLaws.OneStatePriced | internal/pricing/change.go:72-102 | a managed create is its state after and a delete its state before: error, skip with its reason, or whole estimate; the other state is ignored |
| ChangeLaws.TwoStatesPriced | internal/pricing/change.go:104-130 | an update or replacement reports after minus before for the total and each component, the weaker confidence, and the notes of before and then after |
| ChangeLaws.NothingPriced | internal/pricing/change.go:60-138 | no-ops, reads, data sources and unknown actions are skipped, with the reason of each |
| ChangeLaws.GcpStates | internal/pricing/change.go:197-233 | which estimator prices a Google state, by what the extractor made of it |
| ChangeLaws.AzureStates | internal/pricing/change.go:238-261 | which estimator prices an Azure state |
| ChangeLaws.AwsStates | internal/pricing/change.go:148-191 | which estimator prices any other state |
| ChangeLaws.OutcomesExactly | internal/pricing/change.go:205-260 | the sentinel errors of table estimators make skips with their text, all other errors fail |
| ChangeOrder.SortedIsStable | internal/diff/engine.go:90-96 | the sort is descending by absolute delta and keeps equal deltas in input order |
| ChangeOrder.AnyStableSort | internal/diff/engine.go:94-96 | any result that is sorted and stable is this one, whatever the library's algorithm |
| ChangeOrder.SortedMembers | internal/diff/engine.go:94-96 | the sort is a permutation |
| CostDiffs.Categorize | internal/diff/engine.go:120-135 | a change joins the slice of its category and no other |
| FilingLaws.FiledExactly | internal/diff/engine.go:120-135 | for any estimates: every slice holds exactly the changes of its action that were not skipped, the skipped slice the skipped ones, each as often as it occurs |
| FilingLaws.FiledMembers | internal/diff/engine.go:120-135 | the same as membership, for created, deleted, updated, replaced and skipped |
| CostDiffs.TopMovers | internal/diff/engine.go:160-178 | the loop returns the first n unskipped changes |
| CostDiffs.ComputeStats | internal/diff/engine.go:184-204 | the statistics count slices, no-ops and other skips |
| FilingLaws.StatsExactly | internal/diff/engine.go:184-204 | each count is the length of its slice, or the number of positions with a no-op or read, or else with a skip |
| CostDiffs.BuildNotes | internal/diff/engine.go:210-241 | the skip summary, then the verdict on the total |
| FilingLaws.VerdictExactly | internal/diff/engine.go:226-237 | the last note is the one of an unpriceable plan exactly when everything is skipped, and otherwise the sign of the total |
| FilingLaws.SummaryExactly | internal/diff/engine.go:213-224 | there is a summary exactly when something is skipped, with the number of skips and of reasons with either phrase |
| SkipBuckets.FailuresExactly | internal/diff/engine.go:210-241 | the failures in the skip summary are the failed estimates less those whose error mentions "unsupported", so the count is right exactly when none does |
| SkipBuckets.FailureMiscounted | internal/diff/engine.go:217-222 | a plan whose one failed estimate is counted as an unsupported type, because its address holds the word |
| CostDiffs.FileChanges | internal/diff/engine.go:98-112 | the loops after the sort produce the report of the sorted changes |
| CostDiffs.AnalyzeWithEstimator | internal/diff/engine.go:56-113 | for any estimator: an error only for a missing plan or region, else the report on all changes, failures recorded as skips |
| CostDiffs.Analyze | internal/diff/engine.go:33-38 | the production analysis is the report on the estimates of EstimateChange |
| ReportLaws.EstimatesAreSound | internal/diff/engine.go:69-88 | every recorded estimate keeps the contract, recorded failures included |
| ReportLaws.PlanConservation | internal/diff/engine.go:99-101 | the plan's total is the sum of all lines of all changes and the cost after less the cost before |
| ReportLaws.PartitionExactly | internal/diff/types.go:24-28 | for any estimates the five slices make up the changes exactly when each is skipped or has a priced action |
| ReportLaws.StatsAddUpExactly | internal/diff/types.go:63-73 | the six counts add up exactly when no unskipped change has an unknown action |
| ReportLaws.PlanPartition | internal/diff/types.go:63-83 | for the estimates of EstimateChange the slices are a partition in report order and the counts add up to the plan |
| ReportLaws.TopMoversAreTop | internal/diff/types.go:30-33 | the movers are min(5, priced) priced changes in report order, and no priced change left out is larger |
| TrailingSkips.SkipsTrailExactly | internal/diff/engine.go:90-93 | skipped changes trail exactly when no priced change without a delta comes after a skipped one in the plan, and then the movers are the leading changes |
| TrailingSkips.MoversLeadExactly | internal/diff/types.go:30-33 | the movers are the leading changes exactly when at least five priced changes are ahead of each priced change without a delta that comes after a skipped one |
| TrailingSkips.PlanTrailsExactly | internal/diff/engine.go:90-96 | both hold of the report on every plan |
| TrailingSkips.SkipLeadsReport | internal/diff/engine.go:90-96 | a new role without a price and then an unchanged volume: the skipped role leads, and the one mover is not the first change |
| PlanOrder.WeakestMeaning | internal/diff/types.go:35-37 | the report's confidence is low if any priced change is low, else medium if any is, else high |
| PlanOrder.PermutationInvariance | internal/diff/engine.go:69-110 | permuting the plan changes neither total, statistics, confidence, notes nor the multiset of changes |
| PlanReversal.ReversedAction | internal/iac/terraform.go:91-105 | swapping the words create and delete swaps the two actions and leaves every other, replacements included |
| PlanReversal.ReverseTwice | internal/iac/terraform.go:75-79 | reversing a plan twice gives the plan |
| PlanReversal.ReversedChange | internal/pricing/change.go:71-137 | the estimate of a reversed change is the mirror image, errors and skips included |
| PlanReversal.ReversedLines | internal/pricing/change.go:86-130 | it charges every component the opposite and carries the same caveats |
| PlanReversal.SortedMirrors | internal/diff/engine.go:94-96 | mirrored changes sort into the same places |
| PlanReversal.PlanReversed | internal/diff/engine.go:69-110 | reversing a plan negates the total, swaps created and deleted, and keeps every other slice, count, the confidence and the order of changes and movers |
| PlanReversal.NotesReversed | internal/diff/engine.go:210-241 | the notes of the reversed plan report the opposite direction and the same number skipped |
| NoteTable.DeduplicateNotes | internal/diff/markdown.go:226-255 | the nested loops return one row per note |
| NoteTable.TableIsFaithful | internal/diff/markdown.go:221-225 | the rows hold exactly the pairs of note and address the changes carry, without repeats, notes and addresses ordered by first mention |
| Agent.RunReact | insights-agent/src/insights_agent/graph/supervisor.py:265-322 | the worker's nested loops compute the specified loop state, for any model and tools, exceptions included |
| WorkerRuns.WorkerRun | insights-agent/src/insights_agent/graph/supervisor.py:287-322 | every run of a worker, told from outside: each request is the prompt, the conversation and the blocks before it; each block is the model's reply to it; each call is answered by the output of its own execution with its name and arguments when it is within the budget and known, else by the budget or the unknown-tool text; observations are those outputs in order; and the three ways to end |
| Agent.BuildSynthesisInput | insights-agent/src/insights_agent/graph/supervisor.py:166-195 | the two passes compute the brief of the last question and the findings since |
| Briefs.BriefTells | insights-agent/src/insights_agent/graph/supervisor.py:173-195 | the brief holds the question and, one paragraph each and in order, the whole finding of exactly the specialists' messages that say something, or that there is none |
| PythonText.StripIs | insights-agent/src/insights_agent/graph/supervisor.py:185 | stripping removes the white space at both ends and nothing else |
| Agent.AskSupervisor | insights-agent/src/insights_agent/graph/supervisor.py:198-233 | a turn raises or returns the last non-empty AI text, the calls and the observations of its run |
| WorkerLaws.WorkerCaps | insights-agent/src/insights_agent/graph/supervisor.py:289-317 | a worker starts at most its budget of executions, one that raises counted, asks the model at most max_iters times, and observes exactly the outputs of the tools it ran |
| WorkerLaws.WorkerTranscripts | insights-agent/src/insights_agent/graph/supervisor.py:285-317 | at every model call the messages are prompt, conversation and complete blocks, each call answered once, in order, by id |
| WorkerLaws.ExhaustedSaysNothing | insights-agent/src/insights_agent/graph/supervisor.py:319-322 | a worker out of iterations answers nothing, unless it may not iterate at all |
| WorkerLaws.LastWordsAreLost | insights-agent/src/insights_agent/graph/supervisor.py:319-322 | a model that always asks for an unknown tool: the worker uses every iteration and the text sent along last is dropped |
| AgentLaws.TurnCaps | insights-agent/src/insights_agent/graph/supervisor.py:71-77 | every turn on every thread keeps the caps on started tool executions, dispatches, decisions and model calls |
| AgentLaws.TurnEvidence | insights-agent/src/insights_agent/graph/supervisor.py:305-310 | the observations of a turn are exactly its executions, each by a tool of a specialist dispatched in it |
| TurnRuns.TurnRun | insights-agent/src/insights_agent/graph/supervisor.py:121-160 | every turn, told from outside: whom each reply of the supervisor dispatches, what prompt, tools, thread and remaining budget the worker gets, what it leaves behind, and how the turn ends |
| TurnRuns.UsersOf | insights-agent/src/insights_agent/graph/supervisor.py:56-69 | the table of tools, read by tool |
| AgentLaws.GraphTranscript | insights-agent/src/insights_agent/graph/supervisor.py:253-260 | a run adds one signed, call-free, non-empty message per dispatched worker and the reply, and ends with the synthesis request |
| AgentLaws.TurnIsolation | insights-agent/src/insights_agent/graph/supervisor.py:166-187 | whatever the history, the synthesizer reads the question and this turn's findings only |
| AgentLaws.TurnAnswer | insights-agent/src/insights_agent/graph/supervisor.py:221-227 | the answer is the synthesizer's reply, or if that is empty the last worker's text, or without workers an earlier turn's |
| AgentLaws.StaleAnswer | insights-agent/src/insights_agent/graph/supervisor.py:221-227 | a model that says nothing, on a thread that ends with an answer: the turn returns that answer |
| Scanner.NumberEndIsLongest | insights-agent/src/insights_agent/guardrails/validation.py:33-34 | the greedy scan finds the longest match of the number pattern |
| Scanner.ShorterHasNoSuffix | insights-agent/src/insights_agent/guardrails/validation.py:31-32 | backtracking to a shorter number never helps the currency-code pattern |
| Scanner.FoundExactly | insights-agent/src/insights_agent/guardrails/validation.py:55-61 | the number scan finds the number at a digit exactly when no earlier number runs across it |
| Scanner.DollarsAreNumbers | insights-agent/src/insights_agent/guardrails/validation.py:29-34 | every dollar figure is one of the plain numbers of its text |
| DottedChains.FoundUnlessTaken | insights-agent/src/insights_agent/guardrails/validation.py:55-61 | a group that starts with a digit starts a plain number exactly when its digits are not taken as the decimals of another: no point right before it, or no digit left over in the group before the point |
| DottedChains.UsdIsNumberExactly | insights-agent/src/insights_agent/guardrails/validation.py:31-34 | a currency-code figure is one of the plain numbers exactly when its digits are not so taken, in every text |
| DottedChains.UsdIsNumberByParity | insights-agent/src/insights_agent/guardrails/validation.py:31-34 | if the chain before it has no comma: exactly when an even number of points leads up to it |
| Grounding.ExtractMoneyFigures | insights-agent/src/insights_agent/guardrails/validation.py:44-52 | the distinct figures of both patterns, in order |
| Grounding.AllNumbers | insights-agent/src/insights_agent/guardrails/validation.py:55-61 | the values of all plain numbers, in order |
| FigureValues.ValueOfMatch | insights-agent/src/insights_agent/guardrails/validation.py:37-41 | a match is worth its group in base ten without the commas plus its decimals over their power of ten, in every text |
| FigureValues.CommasDropped | insights-agent/src/insights_agent/guardrails/validation.py:39 | a number is worth what it is worth without its commas |
| FigureValues.PrintedValue | insights-agent/src/insights_agent/guardrails/validation.py:37-41 | a number printed with thousands separators or without, with decimals or without, reads back as printed |
| FigureScans.DollarsExactly | insights-agent/src/insights_agent/guardrails/validation.py:29-30 | the dollar figures are exactly the numbers that a dollar sign, or one and a space, introduces |
| FigureScans.CodesExactly | insights-agent/src/insights_agent/guardrails/validation.py:31-32 | the currency-code figures are exactly the numbers that the code follows, from the first digit that ends there |
| FigureScans.FiguresInOrder | insights-agent/src/insights_agent/guardrails/validation.py:44-61 | figures are the values of the dollar forms left to right and then of the code forms, each at its first occurrence; numbers are the values of all plain forms |
| FigureScans.CodeText | insights-agent/src/insights_agent/guardrails/validation.py:31-32 | a number and the code, in either case, with or without a space, state that number |
| FigureScans.PrintedAmount | insights-agent/src/insights_agent/guardrails/validation.py:77-92 | an amount printed with a dollar sign and separators states that amount and is grounded by a tool that printed it plainly |
| Grounding.DeterministicGrounding | insights-agent/src/insights_agent/guardrails/validation.py:77-92 | the figures, the ungrounded ones, and whether there are none |
| Grounding.GroundedExactly | insights-agent/src/insights_agent/guardrails/validation.py:64-67 | grounded exactly when each figure is within a cent or one percent of a number in some observation |
| Grounding.UngroundedExactly | insights-agent/src/insights_agent/guardrails/validation.py:89-92 | the figures named in a rejection are exactly the unsupported ones of the answer |
| FigureScans.NearExactly | insights-agent/src/insights_agent/guardrails/validation.py:64-67 | near is within a cent, or between 99 and 101 percent of the figure |
| Grounding.ValidateAnswer | insights-agent/src/insights_agent/guardrails/validation.py:108-154 | the deterministic check decides, then the judge when there are figures and a judge; with the figures not found, or the judge's words, as the reason |
| FigureScans.RejectsExactly | insights-agent/src/insights_agent/guardrails/validation.py:147-154 | the judge rejects exactly when its words start with "fail" in any case |
| FigureScans.JudgeReasonExactly | insights-agent/src/insights_agent/guardrails/validation.py:152 | the reason is what follows the first colon, or fixed words without one |
| Grounding.SelfGroundedExactly | insights-agent/src/insights_agent/guardrails/validation.py:77-92 | a text quoted as its own evidence is grounded exactly when every currency-code figure whose digits are taken as decimals is near some number of the text |
| Grounding.SelfGrounded | insights-agent/src/insights_agent/guardrails/validation.py:77-92 | a text quoted as its own evidence is grounded when no currency-code figure follows a point; dollar-only texts always are |
| Grounding.PointBreaksSelfGrounding | insights-agent/src/insights_agent/guardrails/validation.py:31-34 | "1.2.3 USD" is not grounded by itself |
| Guardrails.RunGuarded | insights-agent/src/insights_agent/guardrails/runner.py:37-90 | the guarded result by outcome, reason and truncated evidence included: failure, rejected answer, accepted answer |
| Guardrails.ResultHandsOn | insights-agent/src/insights_agent/guardrails/runner.py:37-90 | calls and observations of a finished run are handed on, of a failed one only the error; an answer that is not validated is delivered as it is |
| Guardrails.OnlyGroundedFigures | insights-agent/src/insights_agent/guardrails/runner.py:62-90 | an answer delivered by a validated run states only figures backed by this turn's tools; the fallback is used exactly on failure, an unsupported figure or the judge's rejection |
| Guardrails.FallbackShows | insights-agent/src/insights_agent/guardrails/runner.py:51-82 | a fallback shows the output of this turn's tools, and as its reason exactly the unsupported figures of the answer, or the judge's words about an answer with none |
| Guardrails.FallbackQuotesExactly | insights-agent/src/insights_agent/guardrails/runner.py:69-82 | a fallback quotes figures of the answer exactly when the run finished and its answer states one that no tool returned |
| Guardrails.BoastIsQuoted | insights-agent/src/insights_agent/guardrails/runner.py:69-82 | a model that answers "$5" and asks for nothing: the fallback has no evidence and quotes a figure |
| Guardrails.NoToolsNoFigures | insights-agent/src/insights_agent/guardrails/runner.py:62-90 | a validated turn that ran no tool delivers no figure |
| CacheKeys.SerializeFilters | internal/pricing/cache.go:260-278 | whatever the order in which the keys are met, the text is the lines by ascending key |
| CacheKeys.SerializesUnique | internal/pricing/cache.go:247-250 | a filter map has one serialization |
| CacheKeys.ParseKeyExactly | internal/pricing/cache.go:251-278 | a parser reads a request back from its key exactly when the service and the filter values have no newline and the filter keys no equals sign |
| CacheKeys.KeyInjective | internal/pricing/cache.go:245-258 | clean requests with equal keys are equal |
| CacheKeys.NewlineCollides | internal/pricing/cache.go:271-276 | a newline in a value makes two different maps collide |
| CacheKeys.EqualsCollides | internal/pricing/cache.go:271-276 | an equals sign in a key does too |
| CacheProtocol.StepKeepsInv | internal/pricing/cache.go:108-243 | every atomic step of any client, failing or not, keeps the invariant |
| CacheProtocol.RunsAreSafe | internal/pricing/cache.go:35-45 | in every state of every interleaved run key paths hold old garbage or complete entries the source returned for the key, and hits are such entries within the ttl |
| CacheProtocol.HitsAreFresh | internal/pricing/cache.go:173 | a hit was stamped at most the ttl before it was checked, and not after |
| CacheProtocol.CacheIsTransparent | internal/pricing/cache.go:97-107 | if requests that share a key have the same answer, or nothing ever hits, every answered call of a deterministic source returns what the source would |
| CacheProtocol.CleanIsCoherent | internal/pricing/cache.go:245-258 | requests that can be read back from their keys never share one, so for them this holds of any source |
| CacheTransparency.TransparentExactly | internal/pricing/cache.go:97-107 | exactly then: otherwise some run of one process answers a request with the products of another |
| CacheTransparency.NewlineBreaksTransparency | internal/pricing/cache.go:271-276 | two requests that a newline makes share a key: a source that tells them apart is not served faithfully |
| DiskCache.CacheKey | internal/pricing/cache.go:251-258 | the key of a request |
| DiskCache.Cache.ReadEntry | internal/pricing/cache.go:144-188 | a hit exactly when the file is readable, parses and is within the ttl; corrupt and expired files are swept |
| DiskCache.Cache.WriteEntry | internal/pricing/cache.go:194-243 | the entry in place, or the directory as it was, or one leftover temp file, by which step failed |
| DiskCache.Cache.GetProducts | internal/pricing/cache.go:108-138 | the returned products or error and the directory left behind |
| DiskCache.CallIsARun | internal/pricing/cache.go:108-243 | every call, whatever fails, is a run of the protocol with the same directory and answer |
| CacheCalls.NextCall | internal/pricing/cache.go:97-138 | a call that stored its products serves later calls within the ttl of its stamp, whatever the source says by then, and none after it |
| CacheCalls.MissAsksSource | internal/pricing/cache.go:144-188 | what is no hit asks the source; corrupt and expired files are swept, others left alone |
| CacheCalls.OtherKeysStay | internal/pricing/cache.go:108-138 | a call leaves the files of other keys as they are |
| Backoff.BackoffIsIdeal | internal/llm/retry.go:160-163 | if the base is m times a power of two and m times the cap fits in 63 bits, the wrapped shift gives the ideal backoff for every attempt |
| Backoff.BackoffExactly | internal/llm/retry.go:160-163 | in general it fails exactly when the shift wraps to a positive value below the cap |
| Backoff.BackoffCanGoWrong | internal/llm/retry.go:160-163 | a base for which it does |
| Backoff.DefaultsAreIdeal | internal/config/config.go:144-146 | the configured defaults are always ideal |
| Backoff.ComputeDelay | internal/llm/retry.go:150-171 | the server's wait capped, or a random part of the backoff with a floor |
| Backoff.JitteredExactly | internal/llm/retry.go:160-170 | without a request the wait of an attempt is the random part of min(base * 2^attempt, cap), cut to nanoseconds, at least a millisecond |
| Backoff.RequestedExactly | internal/llm/retry.go:151-158 | whole seconds that fit, or the time until a date cut at zero, and at most the cap |
| Backoff.DelayBounds | internal/llm/retry.go:150-171 | jittered waits lie between a millisecond and the cap, requested ones between zero and the cap while they fit |
| Backoff.SecondsExactly | internal/llm/retry.go:177-179 | a wait in whole seconds is in range exactly when its nanoseconds do not wrap negative |
| Backoff.SecondsOverflow | internal/llm/retry.go:177-179 | at 9223372037 seconds they do |
| RetryTransport.Attempts | internal/llm/retry.go:99-139 | the loop sends the same body each time, drains and closes every response but the returned one once, and ends as specified |
| RetryTransport.RoundTrip | internal/llm/retry.go:72-139 | a body that cannot be read sends nothing; otherwise the loop; the caller's body is closed once, and GetBody and the length are those of the body sent |
| RetryTransport.EndIsFirst | internal/llm/retry.go:99-139 | the end is the first settled attempt, the first cut-off wait, or the last attempt allowed |
| RetryTransport.WaitsExactly | internal/llm/retry.go:99-136 | the i-th wait of a request is the right one for its attempt and its answer: the backoff doubles with every attempt until the cap |
| RetryTransport.TotalWaitBounded | internal/llm/retry.go:99-136 | all waits that begin in one request together, negative ones counted as none and a cut-off one counted whole, stay within maxRetries caps |
| Comments.CapBody | internal/github/comments.go:132-142 | a capped body is the body, or its start and the suffix, exactly at the cap |
| Comments.MarkerSurvivesExactly | internal/github/comments.go:25-32 | a capped body contains its marker exactly when the marker occurs before the cut, is part of the truncation notice, or ends the kept bytes and is completed by the notice |
| Comments.MarkerSurvives | internal/github/comments.go:25-32 | for a marker whose last byte is not in the notice: exactly when it occurs before the cut |
| Comments.FooterSurvives | internal/diff/markdown.go:497 | a marker that occurs once, with a tail of at most fifteen bytes after it as the renderer leaves, survives exactly when the whole body fits; with a longer tail, also when it ends before the cut |
| Comments.OversizeBodyLosesMarker | internal/github/comments.go:132-142 | sixty thousand spaces and the renderer's footer with the default marker: the capped body has no marker |
| Comments.PickMostRecentMatch | internal/github/comments.go:102-125 | the loops return the first of the latest marked comments |
| Comments.LatestIs | internal/github/comments.go:112-117 | among equally late matches the first wins |
| Comments.PickIs | internal/github/comments.go:97-101 | a marked comment than which none is later, if there is one |
| Comments.ListComments | internal/github/comments.go:155-174 | the page loop returns exactly the first min(n, 5000) comments, or nothing when a page it asks for fails |
| Comments.PostOrUpdateComment | internal/github/comments.go:75-95 | the server's new state and the report of a run |
| UpsertRuns.LandedWrites | internal/github/comments.go:75-95 | after a landed run the chosen comment, and no other with its id, holds the capped new body and the new stamp; which comment is chosen; a run that does not land changes nothing |
| UpsertRuns.ReportsChosen | internal/github/comments.go:38-43 | the report names the chosen comment and says whether it is new |
| UpsertRuns.MarkedCountOverRuns | internal/github/comments.go:41-52 | over any history the number of marked comments is the initial one, and max(1, initial) once a run has landed |
| UpsertRuns.SameCommentForever | internal/github/comments.go:54-58 | after the first landed run every later answered run reports an update of that run's comment, and every later run adds none and leaves all others as they are |
| UpsertRuns.BodyOverRuns | internal/github/comments.go:83-88 | over any history the comment holds the capped body of the last landed run, with its stamp |
| UpsertRuns.ChosenForever | internal/github/comments.go:54-58 | every later run chooses the comment that the first landed run chose |
| UpsertRuns.OthersUntouched | internal/github/comments.go:83-88 | no run changes any other comment |
| UpsertRuns.LostMarker | internal/github/comments.go:28-31 | a landed run whose capped body lost the marker unmarks the comment it updates, or with nothing marked adds one unmarked comment |
| UpsertRuns.LostMarkersOverRuns | internal/github/comments.go:60-64 | over any history of such runs the number of marked comments falls by one with each landed run down to none, and then each takes a new id and adds a comment, as far as others delete none |
| UpsertRuns.LostMarkersPost | internal/github/comments.go:60-64 | once none is left, every landed run posts |
| UpsertRuns.BeyondTheListing | internal/github/comments.go:19-23 | a run posts exactly when no marked comment is among the first 5000 |

## Left out

- HTTP, the AWS, Azure and GCP SDKs, Postgres, the graph runtime, model providers, the web interface, renderers, logging and configuration loading: input, output or libraries.
- The graph runtime's recursion limit, its checkpoint format and its replacement of messages with equal ids: a thread's messages are a list that only grows.
- Float rounding and NaN: money, rates and figures are exact.
- JSON, sha256 and rename: a file parses to what was written or not at all, different keys have different hashes, a rename is atomic. Durability after a power failure is not modelled.
- Content blocks of a model message: a message's content is the text they flatten to. Tool outputs are their text.
- Digits, white space and letters outside ASCII in the figure patterns and in stripping.
- The attribute extractors, and the estimators with few branches (EBS, RDS, RDS cluster instances, Lambda, NAT gateway, disks, cloud functions): functions of the source with the shared contract that the total is the sum of the lines.
- Nil arguments of estimators, and the escapes of special characters in quoted names.
- Exceptions of the judge model, which the runner does not catch, and the wording of the fallback and its number format.
- DiskCache.CacheKey: stops at the text that is hashed; different texts are taken to have different hashes.
- A base transport that returns a response together with an error.
- Clocks that go back or that processes disagree on: all processes that share the cache see one clock that never goes back, so a hit's stamp is in the past.
- Two upserts at the same time, which may both post. The server stamps every write later than the one before and never reuses an id.
