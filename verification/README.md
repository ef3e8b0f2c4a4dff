# Verification of QuISP's protocol core

QuISP simulates quantum repeater networks. This project models the parts of it that are a
protocol or an algorithm and proves what they keep. Verify everything with
`dafny verify dfyconfig.toml`.

- **Link pipeline** (`ResourceLists`, `Pipeline`, `PipelineInvariant`, `PipelineTheorems`,
  `EventCounts`): two neighbours run the same purification RuleSet over their halves of one
  stream of Bell pairs. A rule locks one half, consumes the others and reports an outcome to
  itself and to the partner; two equal reports promote the half, two different ones discard it.
  A state machine of both nodes with FIFO channels; invariants hold in every interleaving.
- **Shared fate and partner pointers** (`Holdings`, `Fates`, `Pointers`, `Bonds`): memory qubits
  are reused while the other node still holds a half of the old pair; the partner pointers stay
  sound anyway, and which halves have one is decided by dark counts and memory errors alone.
- **Reports in any order** (`Verdicts`, `AnyOrder`, `FifoOrder`): what the result tables decide,
  and that no verdict misses its half, without assuming FIFO channels.
- **The engine's traversal** (`Conditions`, `Traversal`, `LinkTraversal`): all running RuleSets
  with purification, measuring and swapping rules, their conditions with mutable counts, and the
  erasure of a finished RuleSet; on a link it is a run of the pipeline.
- **Qubits and tables in place** (`Qubits`, `RuleClass`, `EngineClass`, `ReportHandler`): qubits,
  purification rules, result tables and RuleSets as classes whose methods change fields, with the
  gate errors as inputs, proved against the list and circuit functions of the other modules.
- **Purification circuits** (`Circuits`, `Detection`, `EndToEnd`, `PauliFrames`): error flags as
  a parity algebra, detection distances of the schedules 2002, 3003, 1001 and 1221, and their
  transfer to every pair the running protocol measures.
- **Entanglement swapping** (`PathDivision`, `Swapping`): the recursive path division in its
  three arrays, and the swapping nodes acting on their own rules in any order.
- **Link bookkeeping** (`LinkBooks`, `Bsa`, `LinkRun`, `Allocation`): busy table, shot tracker and
  resource pool, the Bell-state analyser's bursts, both QNICs and the analyser run together, the
  priority allocation of new pairs.
- **Error processes** (`Markov`) and **tomography** (`Tomography`, `Reconstruction`): transition
  matrix powers and sampling ceilings over exact reals; matching, counting, the reconstructed
  state and the reported rates.

Where code and documentation disagree the code is followed:

- `BSAresult` carries its flag in a field named `entangled`, and the analyser sets it to true
  for a *failed* attempt; the lists it ends up in are called lists of failures
  (quisp/modules/BellStateAnalyzer.cc:308-323). The model calls the flag `failed`.
- `initializeVariables` resets the left loss flag twice and the right one never
  (quisp/modules/BellStateAnalyzer.cc:296-297); `Report` does the same. It has no effect, because
  every arrival overwrites the flag of its side.
- `Zpurify` leaves its Hadamard on the tool (quisp/modules/stationaryQubit.cc:653-662).
- The comment at quisp/modules/ConnectionManager.cc:361-385 describes swapping every other node
  round by round; the code bisects the path.
- A memory update with a Pauli rate of exactly one ignores the elapsed time
  (quisp/modules/stationaryQubit.cc:739-767); `Markov.ShortcutExact` says when that is wrong.
- A photon that already has an error gets the drawn state applied as a change
  (quisp/channels/QuantumChannel.cc:185-200); `Markov.Photon.Pass` says when that is the
  drawn state.

## Model

| member | source | states |
|---|---|---|
| ResourceLists.FindAction | quisp/modules/RuleEngine.cc:576-598 | the position found is the first entry locked by that action, or the length of the list |
| ResourceLists.LayoutOps | quisp/rules/Action.cc:20-35 | on a list of locked entries followed by unlocked ones, picking, consuming and locking act on the unlocked part only, oldest first |
| PipelineInvariant.HearKeeps | quisp/modules/RuleEngine.cc:1240-1246 | a report sent by one node keeps the other node's invariant: the channel holds exactly the undelivered reports in order |
| PipelineInvariant.OldestFirst | quisp/modules/RuleEngine.cc:369-393 | the second report of an action always concerns the oldest waiting action of its rule, whose half stands first in the list |
| PipelineInvariant.VerdictKeeps | quisp/modules/RuleEngine.cc:350-394 | settling an action keeps every list, table and promotion a function of the history |
| PipelineInvariant.StepKeeps | quisp/modules/RuleEngine.cc:68-345 | every step of either node keeps the invariant of both nodes |
| PipelineInvariant.RunInv | quisp/modules/RuleEngine.cc:1197-1343 | the invariant holds after every interleaving of arrivals, actions, measurements and report deliveries |
| PipelineTheorems.Alignment | quisp/rules/Action.cc:20-35 | the j-th half ever put in a rule at one node is the other half of the j-th put there at the other node, in every interleaving |
| PipelineTheorems.ActionInputs | quisp/rules/Action.cc:180-231 | at either node action i of a k-input rule takes exactly the halves placed at k*i to k*i+k-1, the same pairs at both nodes |
| PipelineTheorems.OffsetIsProduct | quisp/rules/Action.cc:180-231 | the offset used in ActionInputs is the product k*i |
| PipelineTheorems.VerdictsAgree | quisp/modules/RuleEngine.cc:350-394 | both nodes give the same verdict on action i of every rule, keep exactly when the two outcomes are equal |
| PipelineTheorems.NeverFails | quisp/modules/RuleEngine.cc:566-642 | the program's errors about a missing locked resource or a rule list that came to its end are unreachable |
| PipelineTheorems.TomographyPairs | quisp/rules/Clause.cc:114-134 | the measured pairs of one node are a prefix of the other's, never more than the maximum, and a node finishes exactly at the maximum |
| PipelineTheorems.OldestFirstThroughout | quisp/rules/Action.cc:20-35 | at either node pairs reach every rule in age order and none twice, so none is measured twice |
| PipelineTheorems.QuiescentAgreement | quisp/modules/RuleEngine.cc:566-642 | when nothing is enabled or in flight the two nodes have the same lists, nothing is locked and fewer than k halves remain |
| EventCounts.HistoryIsEvents | quisp/modules/RuleEngine.cc:68-345 | in every run every enabled event leaves its mark: pairs arrived, measurements made, outcomes recorded and reports read are those of the events a node ran, and a report sent and not read is in the channel |
| Verdicts.AnyOrder | quisp/modules/RuleEngine.cc:350-394 | whatever the arrival order: one report is stored under its key, two give exactly one verdict, keep if and only if the outcomes agree |
| Verdicts.SameVerdict | quisp/modules/RuleEngine.cc:396-518 | two nodes that receive mirrored reports in any two orders give the same verdict per action, each once, for every kind of result |
| AnyOrder.HearsKeeps | quisp/modules/RuleEngine.cc:350-394 | in any order of reports, every action that still misses one has its half locked in its rule's list |
| AnyOrder.NoMissingHalf | quisp/modules/RuleEngine.cc:602-604 | so the errors about a missing resource are unreachable in any order of the reports, not only over FIFO channels |
| FifoOrder.FifoIsAnyOrder | quisp/modules/RuleEngine.cc:350-394 | every run of the pipeline is, at either node, one of those runs, with the same lists and result table |
| Qubits.StationaryQubit.SetFree | quisp/modules/stationaryQubit.cc:398-442 | a freed qubit is unlocked, unallocated, without errors and without partner |
| Qubits.StationaryQubit.HadamardGate | quisp/modules/stationaryQubit.cc:346-352 | the drawn error toggles the flags, then the X and Z flags change places |
| Qubits.StationaryQubit.CnotGate | quisp/modules/stationaryQubit.cc:366-380 | after the drawn errors, X errors go from control to target and Z errors from target to control |
| Qubits.StationaryQubit.XPurify | quisp/modules/stationaryQubit.cc:643-651 | for all errors drawn by CNOT and measurement, the fields after an X purification are those of the circuit, and the outcome is its outcome |
| Qubits.StationaryQubit.ZPurify | quisp/modules/stationaryQubit.cc:653-662 | the same for Z purification and the errors of its Hadamard, which stays on the tool |
| RuleClass.ActionByQubit | quisp/rules/Action.cc:180-231 | locking the first unlocked qubit and removing the next k-1 by identity is the k-input action on lists |
| RuleClass.Rule.AddResource | quisp/rules/Rule.cc:17-23 | the new resource joins the end of the list |
| RuleClass.Rule.GetResourceFromTop | quisp/rules/Action.cc:20-35 | the qubit found is the requested one among the unlocked qubits, oldest first; none exactly when there are too few |
| RuleClass.Rule.RemoveResource | quisp/rules/Action.cc:60-70 | the first entry holding the qubit leaves and no other |
| RuleClass.Rule.EnoughResource | quisp/rules/Clause.cc:33-50 | true exactly when the list is not empty and holds the required number of unlocked qubits |
| RuleClass.Rule.RunSingle | quisp/rules/Action.cc:180-231 | an X or Z purification picks the two oldest unlocked qubits, locks one with the error flags of the circuit and the drawn gate errors, frees the tool and its partner's pointer, and reports the circuit's outcome; with fewer it changes nothing and fails |
| RuleClass.Rule.RunDouble | quisp/rules/Action.cc:234-363 | the same for three qubits and two outcomes, X first or Z first |
| RuleClass.Rule.FindByAction | quisp/modules/RuleEngine.cc:576-598 | the search by action index finds the entry FindAction names |
| RuleClass.Rule.CheckRun | quisp/rules/Rule.cc:31-44 | at the qubits of a purification rule the action runs exactly when its resource clause holds, never meets an error, and numbers its reports in order |
| RuleClass.ActionCount | quisp/rules/Action.cc:180-231 | every action lowers the number of unlocked qubits by its number of inputs |
| EngineClass.ResultTable.StoreCheck | quisp/modules/RuleEngine.cc:369-393 | the loop over equal ruleset ids stores a first report and, on the second, forgets the entry and keeps exactly when the outcomes are equal |
| Circuits.QuietAction | quisp/modules/stationaryQubit.cc:939-962 | gates that draw no error run the noise-free circuit |
| Circuits.NoisyXBits | quisp/modules/stationaryQubit.cc:643-651 | an X purification reports plus exactly when the X errors of tool, kept half, their drawn errors and the measurement error are even in number; Z errors of the tool reach the kept half |
| Circuits.NoisyZBits | quisp/modules/stationaryQubit.cc:653-662 | the same for Z purification, with the Z error of its Hadamard and the X error of the measurement |
| Circuits.NoiseIsInputError | quisp/rules/Action.cc:180-363 | for all four kinds of action and all drawn errors, the kept half and the outcomes are those of the error-free action on inputs carrying the errors |
| Circuits.NoisyParity | quisp/rules/Action.cc:180-363 | two nodes with drawn errors of their own: output parity and acceptance are those of the pairs' parities with the difference of the drawn errors added |
| Circuits.ReadingErrors | quisp/modules/stationaryQubit.cc:339-343 | measurement errors alone leave the kept half as it is, and the action is accepted exactly when no X error hit a reading it makes |
| EngineClass.RuleSet.UnlockAndUpgrade | quisp/modules/RuleEngine.cc:566-605 | the half of that action leaves its list, is unlocked and stands last in the next rule's list; other lists do not change; fails exactly where the program stops |
| EngineClass.RuleSet.UnlockAndDiscard | quisp/modules/RuleEngine.cc:607-642 | the half of that action leaves its list and is free; other lists do not change |
| EngineClass.ExhaustLeavesFew | quisp/modules/RuleEngine.cc:1209-1338 | a traversal of a purification rule runs it floor(n/k) times and leaves fewer than k unlocked qubits |
| EngineClass.RuleSet.ExhaustRule | quisp/modules/RuleEngine.cc:1214-1336 | the same loop over the qubits of a purification rule, for all gate errors: it ends, numbers its actions in order and leaves the other rules alone |
| EngineClass.RuleSet.Traverse | quisp/modules/RuleEngine.cc:1197-1343 | over the qubits of a RuleSet's purification rules a pass ends, meets no error and leaves no rule that could act; Traversal.Engine.Traverse has all kinds of rules and all RuleSets |
| ReportHandler.PipelineSettles | quisp/modules/RuleEngine.cc:350-394 | the pipeline's step on a report is one function of the stored results and the rules' lists |
| ReportHandler.Handler.Handle | quisp/modules/RuleEngine.cc:350-394 | the handler over result table, rules and qubits computes that same function, and fails exactly where it does |
| Traversal.CheckRunSafe | quisp/rules/Rule.cc:31-44 | for purification, measuring and swapping rules as they are built, a condition that holds gives the action what it needs: no error packet, fewer unlocked qubits after an action |
| Traversal.FailsAgain | quisp/rules/Condition.cc:28-39 | a failed condition fails again although its counts went up, so a rule once passed over stays idle |
| Traversal.RuleRuns | quisp/modules/RuleEngine.cc:1214-1336 | the inner loop sends no error and leaves the rule idle, or ends the RuleSet with a count at its maximum after a measurement |
| Traversal.PurifyRuns | quisp/rules/Action.cc:180-231 | a purification rule of a link runs as often as its unlocked qubits allow, with consecutive action indices; the inputs of its actions one after the other and then the qubits still unlocked are the unlocked qubits in order |
| Traversal.MeasureRuns | quisp/rules/Action.cc:496-530 | a measuring rule of a link measures the oldest qubits under consecutive count ids, only the last possible id carries the running time, and it ends the RuleSet exactly at that id |
| Traversal.SwapTakes | quisp/rules/Action.cc:72-177 | a swapping action fails exactly when a side has no unlocked qubit; otherwise it names the first unlocked qubit of either partner and exactly these two leave the list, in whatever order they stand |
| Traversal.SwapRuns | quisp/rules/Action.cc:72-177 | a swapping rule swaps as often as both sides allow; the k-th swap joins the k-th free qubits of the two partners, exactly those leave the list, and the rest keeps its order |
| Traversal.SpentCountNeverEnds | quisp/modules/ConnectionManager.cc:685-698 | a count that failed checks brought to its maximum never ends its RuleSet |
| Traversal.RulesRun | quisp/modules/RuleEngine.cc:1209-1340 | a pass over a RuleSet ends it exactly when one of its rules does; otherwise every rule ran and is idle |
| Traversal.SurvivorsIdle | quisp/modules/RuleEngine.cc:1197-1343 | after a traversal every rule of every running RuleSet is idle, and no error was sent |
| Traversal.ErasedExactly | quisp/modules/RuleEngine.cc:1325-1334 | a RuleSet is erased exactly when running one of its rules ended it |
| Traversal.SurvivorsInOrder | quisp/modules/RuleEngine.cc:1197-1343 | the RuleSets left keep their order, and those left are exactly the ones that were not ended |
| Traversal.LinkErasedExactly | quisp/modules/RuleEngine.cc:1325-1334 | a link's RuleSet is erased exactly when its measuring rule has resources for all measurements left, so when its count reaches the maximum |
| Traversal.Engine.RunOne | quisp/modules/RuleEngine.cc:1214-1336 | the inner loop ends and computes the run of the rule |
| Traversal.Engine.RunFrom | quisp/modules/RuleEngine.cc:1209-1340 | the middle loop computes the pass over the RuleSet |
| Traversal.Engine.Traverse | quisp/modules/RuleEngine.cc:1197-1343 | the three loops over RuleSets, rules and actions end for all RuleSets, never stop with an error, and leave exactly the surviving RuleSets, erasing while they iterate |
| LinkTraversal.PurifyIsAct | quisp/rules/Action.cc:180-231 | a turn of a purification rule is the pipeline's action event, enabled exactly when the condition holds |
| LinkTraversal.MeasureIsMeasure | quisp/rules/Action.cc:496-530 | a turn of the measuring rule is the pipeline's measurement; its packet carries the node's next count and half, and the running time exactly when the node is done |
| LinkTraversal.ReachableTraversal | quisp/modules/RuleEngine.cc:1197-1343 | at every reachable node one traversal of a link's RuleSet is a run of pipeline events, and ends the RuleSet exactly when the node is done |
| Conditions.CheckIsConjunction | quisp/rules/Condition.cc:28-39 | a condition holds exactly when all clauses do, and exactly the clauses before the first failing one have counted |
| Conditions.FailedCheckCounts | quisp/rules/Condition.cc:28-39 | a failed check changes no counter if and only if no count stands before the first failing clause |
| Conditions.CountRunsOut | quisp/modules/ConnectionManager.cc:688-692 | a count placed before an unmet resource clause reaches its maximum without one measurement |
| Conditions.CountThenEnough | quisp/modules/HardwareMonitor.cc:1020-1034 | where an unlocked resource is there, count and resource clause together count like the count alone |
| Conditions.Condition.EnoughCheck | quisp/rules/Clause.cc:33-50 | the loop decides the resource clause |
| Conditions.Condition.Check | quisp/rules/Condition.cc:28-39 | the loop with its early exit returns the conjunction and leaves the counters it has ticked |
| Conditions.Condition.CheckTerminate | quisp/rules/Condition.cc:53-62 | true exactly when some count has reached its maximum |
| Conditions.MeasuringRule.Drain | quisp/modules/RuleEngine.cc:1214-1336 | the measuring rule gives consecutive count ids to the oldest qubits, stops at the maximum, and only the last id carries the running time |
| Holdings.OnePlace | quisp/rules/Action.cc:60-70 | a half is in one rule's list, once, with one lock |
| Holdings.LeavesOrStays | quisp/modules/RuleEngine.cc:566-642 | a measured or discarded half was in the lists and leaves them; every other half stays |
| Fates.DiscardedTogether | quisp/modules/RuleEngine.cc:607-642 | when a node discards its half, the other node's half is locked by the same action with differing outcomes, or was discarded before |
| Fates.DoomedStays | quisp/modules/RuleEngine.cc:566-642 | a half both nodes disagree on stays locked in place until its own node discards it |
| Fates.MeasuredNotDoomed | quisp/rules/Action.cc:180-231 | no action measures a half that the other node discarded |
| Pointers.BreakOne | quisp/rules/Action.cc:205-219 | measuring a half that is not doomed clears both pointers and keeps all others sound |
| Pointers.FreeOne | quisp/modules/stationaryQubit.cc:398-442 | freeing a discarded half clears only its own pointer and stays sound when the other half is doomed or gone |
| Pointers.NextKeeps | quisp/modules/RuleEngine.cc:1031-1049 | every step of the link, entanglement, decay, action, measurement or verdict, keeps the pointers sound; which ones there are is Bonds.PointerExactly |
| Pointers.PartnerPointsBack | quisp/modules/RuleEngine.cc:1031-1040 | an unlocked or not yet pooled half has no partner pointer or one whose pointer leads back, in every reachable state, so the entanglement tracking errors are unreachable |
| Pointers.FreeCellsClean | quisp/modules/stationaryQubit.cc:398-442 | a memory qubit without a live half has no partner pointer when a new pair is made in it |
| Bonds.EntangleLinks | quisp/modules/BellStateAnalyzer.cc:372-391 | success makes the two memory qubits each other's partner, a dark count leaves both without; no other pointer changes |
| Bonds.PointerExactly | quisp/modules/BellStateAnalyzer.cc:372-391 | in every reachable state a half whose other half is there has its pointer, leading to the other half, if and only if its pair was made without a dark count and no memory error has hit either half since |
| Bonds.WidowUnlinked | quisp/rules/Action.cc:205-219 | a half whose other half is gone has a pointer only while a failed purification dooms it |
| Circuits.ActionParity | quisp/rules/Action.cc:234-363 | the two nodes' codes on two halves act on the parity of the halves as one function, and accept together by parity alone |
| Circuits.FuseParity | quisp/rules/Action.cc:180-231 | the parity and acceptance of a purified pair are functions of its inputs' parities |
| Circuits.Distance | quisp/modules/stationaryQubit.cc:643-662 | an accepted pair with an X (Z) error contains at least 2^k faulty base pairs, k the rounds guarding X (Z) |
| Circuits.SingleFaultShows | quisp/modules/stationaryQubit.cc:643-662 | an accepted pair with exactly one faulty base pair carries an error |
| Circuits.NoFaultsClean | quisp/modules/stationaryQubit.cc:643-662 | without faults every round accepts and the result is clean |
| Detection.CheapestWorks | quisp/rules/Action.cc:234-363 | for every schedule a tree with the smallest number of faults is accepted with that error: the distance is tight |
| Detection.SingleFaultIff | quisp/rules/Action.cc:180-363 | some accepted tree has exactly one faulty base pair if and only if the schedule never guards X or never guards Z |
| Detection.BuildLinkRules | quisp/modules/HardwareMonitor.cc:603-750 | the rule building loops of types 2002, 3003, 1001 and 1221 give that many rules with these actions, position by position |
| Detection.SchemeDistance | quisp/modules/HardwareMonitor.cc:603-750 | the distances of the four types for every number of purifications |
| Detection.SchemeSingleFault | quisp/modules/HardwareMonitor.cc:603-750 | a single fault gets through if and only if there is no round, the type is 1001, or it is one round of 3003 or 1221 |
| Detection.XZSingleFault | quisp/rules/Action.cc:234-298 | a single fault passes type 1001 exactly when it is an X error on the base pair reached by always taking the Z tool, and it stays in the output |
| EndToEnd.MeasuredAccepted | quisp/modules/RuleEngine.cc:1197-1343 | in every interleaving a pair either node measures comes from a tree accepted under the whole schedule, the same tree at both nodes under the same count id |
| EndToEnd.MeasuredDistance | quisp/modules/HardwareMonitor.cc:603-750 | so the detection results hold for every pair either node of the running protocol measures |
| EndToEnd.MeasuredLeavesDistinct | quisp/rules/Action.cc:20-35 | the base pairs behind a pair either node measures are distinct, so its faults count distinct faulty pairs |
| PathDivision.ExactSize | quisp/modules/ConnectionManager.cc:109-115 | for l >= 1 the computed size is 2l-1, the number of pieces; below it is l |
| PathDivision.SplitsExact | quisp/modules/ConnectionManager.cc:127-141 | the pieces are exactly one real link per hop and one stretch per inner position, the one it joins |
| PathDivision.SplitsOrder | quisp/modules/ConnectionManager.cc:127-141 | the pieces are written from left to right, inner ones first, so with SplitsExact their order is fixed |
| PathDivision.Halved | quisp/modules/ConnectionManager.cc:127-141 | every swapper stands in the middle of the stretch it joins, the left part rounded down |
| PathDivision.SplitsOnce | quisp/modules/ConnectionManager.cc:127-141 | no piece is written twice, so every inner node is swapper once |
| PathDivision.PostOrder | quisp/modules/ConnectionManager.cc:127-141 | both stretches a swapper joins are written before the one it makes |
| PathDivision.Fill | quisp/modules/ConnectionManager.cc:127-141 | the recursive method returns fill_start plus the number of pieces, the three arrays hold the pieces there, the whole stretch last, and nothing else changes; a length of zero or less writes nothing |
| PathDivision.PartnerMap | quisp/modules/ConnectionManager.cc:230-255 | the map holds the positive swappers with the partners of their first cell, and the list names the same swappers |
| PathDivision.PlanRules | quisp/modules/ConnectionManager.cc:213-303 | for distinct positive addresses the end nodes get no swapping rule and every inner node gets the partners of the stretch it joins |
| PathDivision.Nested | quisp/modules/ConnectionManager.cc:127-141 | a node waited for joins a stretch inside one half of the waiting node's stretch |
| PathDivision.PartnersWait | quisp/modules/ConnectionManager.cc:127-141 | the partners of a node wait for it |
| PathDivision.DepthIsLogarithm | quisp/modules/ConnectionManager.cc:127-141 | the depth h of the bisection satisfies l <= 2^h and, for l > 1, 2^(h-1) < l |
| PathDivision.LogarithmUnique | quisp/modules/ConnectionManager.cc:127-141 | no other h satisfies those bounds |
| PathDivision.ChainsAreShort | quisp/modules/ConnectionManager.cc:127-141 | no chain of swaps waiting for one another is longer than the depth |
| PathDivision.DeepestChain | quisp/modules/ConnectionManager.cc:127-141 | some chain is exactly as long as the depth |
| Swapping.SwapKeeps | quisp/rules/Action.cc:72-177 | a swap keeps the invariant: live pointers along the chain, no pointer back to a measured qubit, one notice or list entry per wanted neighbour |
| Swapping.ChainAlways | quisp/rules/Action.cc:72-177 | in every reachable state two qubits point at each other exactly across neighbours among the nodes that have not swapped, from one end of the path to the other |
| Swapping.ListedExactly | quisp/rules/Action.cc:72-177 | in every reachable state a node lists only the partners its rule names, each once, and knows of one exactly while it has not swapped and everybody between them has |
| Swapping.NoDeadlock | quisp/modules/ConnectionManager.cc:224-239 | while some node has not swapped, some result can be delivered or some node can swap |
| Swapping.RunsEnd | quisp/rules/Action.cc:72-177 | every run ends after at most 5n-3 events, and no node swaps twice |
| Swapping.MaximalRun | quisp/modules/ConnectionManager.cc:224-239 | a run that cannot go on made exactly n-1 swaps, left the single link from end to end, and told both ends |
| LinkBooks.StepKeeps | quisp/modules/RuleEngine.cc:72-92 | an event meets an error exactly when a verdict list is longer than its burst, and otherwise keeps the books |
| LinkBooks.RunKeeps | quisp/modules/RuleEngine.cc:984-1075 | over every run the errors of the busy table and the tracker are unreachable exactly when every verdict list fits its burst |
| LinkBooks.Separate | quisp/modules/RuleEngine.cc:984-1075 | scheduled, shot, pooled and stranded qubits are pairwise disjoint and without repeats, and are exactly the busy ones |
| LinkBooks.SettledOnce | quisp/modules/RuleEngine.cc:984-1075 | a verdict list settles every shot of the burst once: pooled when good, free otherwise |
| LinkBooks.EveryQubit | quisp/modules/RuleEngine.cc:756-1075 | where each event takes each qubit: a timely request schedules the lowest free one, an emission fires or strands its own, verdicts pool the good shots and free the rest, using up frees one; all other qubits stay, and the lists keep their order |
| LinkBooks.PooledInOrder | quisp/modules/RuleEngine.cc:1011-1056 | the good shots enter the pool in the order they were fired |
| LinkBooks.Conservation | quisp/modules/RuleEngine.cc:833-889 | free, scheduled, shot, pooled and stranded qubits always add up to the size of the QNIC |
| LinkBooks.StrandedWhen | quisp/modules/RuleEngine.cc:78-81 | a qubit is stranded exactly when its emission arrives after its burst is over |
| LinkBooks.OutdatedEmissionStrands | quisp/modules/RuleEngine.cc:78-81 | a run in which that happens |
| LinkBooks.StrandedForEver | quisp/modules/RuleEngine.cc:78-81 | a stranded qubit never becomes free again |
| LinkBooks.FirstTableLists | quisp/modules/RuleEngine.cc:802-831 | the initial table lists the qubits of every QNIC in order, each once, all free |
| LinkBooks.QnicBook.CountFree | quisp/modules/RuleEngine.cc:846-854 | the count is zero exactly when no qubit is free |
| LinkBooks.QnicBook.GetOneFree | quisp/modules/RuleEngine.cc:833-844 | the lowest free qubit of the QNIC, or -1 |
| LinkBooks.QnicBook.Mark | quisp/modules/RuleEngine.cc:856-889 | the qubit's line changes and no other; fails exactly when it already had that mark |
| LinkBooks.QnicBook.Shoot | quisp/modules/RuleEngine.cc:756-785 | a free qubit becomes busy and its emission is scheduled, unless the burst is over or none is free |
| LinkBooks.QnicBook.Emit | quisp/modules/RuleEngine.cc:72-92 | a timely emission gets the next shot number, an outdated one is dropped |
| LinkBooks.QnicBook.Judge | quisp/modules/RuleEngine.cc:1011-1056 | good shots join the pool in order, failed ones are freed; fails exactly at a shot the tracker does not hold |
| LinkBooks.QnicBook.FreeRest | quisp/modules/RuleEngine.cc:1059-1071 | shots without verdict are freed, each once |
| LinkBooks.QnicBook.Results | quisp/modules/RuleEngine.cc:110-124 | a new burst begins, the verdicts are applied and the tracker is empty; fails exactly when the list is longer than the burst |
| LinkBooks.QnicBook.Consume | quisp/modules/RuleEngine.cc:1345-1359 | the qubit is free and leaves the pool |
| Bsa.Click | quisp/modules/BellStateAnalyzer.cc:213-262 | the qubits are entangled exactly when no photon was lost and the draw succeeded, mixed exactly on dark counts, and failure is reported exactly when neither happened |
| Bsa.Analyzer.Handle | quisp/modules/BellStateAnalyzer.cc:134-283 | the handler refines the step function of the trial; what it sends is Bsa.MessageWhen and Bsa.VerdictsTrue |
| Bsa.HomController.Handle | quisp/modules/HoM_Controller.cc:115-155 | every verdict is stored under the next position; the last one sends the list and empties the table |
| Bsa.StepKeeps | quisp/modules/BellStateAnalyzer.cc:134-283 | every arrival keeps: verdicts pair photons in order, no photon twice, the lists sent are the verdicts of the finished bursts |
| Bsa.TrialSafety | quisp/modules/BellStateAnalyzer.cc:134-327 | for every arrival sequence there is one list per finished burst, in order, no longer than the arrivals of that burst on either side |
| Bsa.AtMostArrivals | quisp/modules/BellStateAnalyzer.cc:134-283 | a burst has at most as many verdicts as photons on the poorer side |
| Bsa.SilentAfterEnd | quisp/modules/BellStateAnalyzer.cc:308-327 | a burst ends exactly with its last verdict, and nothing follows until a first photon arrives |
| Bsa.MessageWhen | quisp/modules/BellStateAnalyzer.cc:205-283 | an arriving photon leads to a message exactly when one is waiting on the other side, and it reports success exactly when the two are close enough in time and both detectors click |
| Bsa.VerdictsTrue | quisp/modules/BellStateAnalyzer.cc:205-327 | in every run, verdict j of every list sent is good exactly when its two photons made a pair, the qubits were entangled or mixed exactly then, and the list ends with the first verdict after a last photon |
| Bsa.VerdictsByShot | quisp/modules/BellStateAnalyzer.cc:134-283 | in every run in which no photon overtakes a waiting one of its side, verdict j of every list sent is about photon j of either side of its burst |
| Bsa.VerdictsFit | quisp/modules/RuleEngine.cc:1011-1016 | a list of a burst whose photons the node recorded is applied without error |
| LinkRun.PhotonKeeps | quisp/modules/BellStateAnalyzer.cc:134-283 | an arriving photon keeps: no burst has seen more photons of a side than that side fired in it |
| LinkRun.ListFits | quisp/modules/RuleEngine.cc:1011-1016 | the verdict list of a burst is no longer than the shots its node recorded |
| LinkRun.NoShotMissing | quisp/modules/RuleEngine.cc:984-1075 | in every run of two QNICs, analyser and controller the busy tables and trackers meet no error and every list on its way fits |
| LinkRun.RunOfParts | quisp/modules/RuleEngine.cc:984-1075 | in every run of the link the analyser and controller do what they do on its photons alone, and each node's books are the run of its own events with the lists in the order they were sent |
| Markov.PowerStochastic | quisp/modules/stationaryQubit.cc:95-104 | every power of a row-stochastic matrix is row-stochastic |
| Markov.MemoryIs | quisp/modules/stationaryQubit.cc:95-104 | for proper rates the memory matrix is row-stochastic, has the zero block and depends on the Pauli states by their exclusive or only |
| Markov.FibreIs | quisp/channels/QuantumChannel.cc:118-124 | the same for the matrix of the fibre |
| Markov.MemoryStep | quisp/modules/stationaryQubit.cc:95-104 | one unit of time adds X, Z and Y errors at their own rates to any Pauli state, and excites, relaxes or mixes at theirs from every other state |
| Markov.FibreStep | quisp/channels/QuantumChannel.cc:118-124 | one unit of length adds X, Z and Y errors at their own rates to a photon with any errors, and loses it at the loss rate; a lost one stays lost |
| Markov.PowerForm | quisp/modules/stationaryQubit.cc:760-767 | every power keeps the zero block and the exclusive or form |
| Markov.PowersCompose | quisp/modules/stationaryQubit.cc:760-767 | updating an error after a and then b units of time is updating it once after a+b |
| Markov.MemoryChoice | quisp/modules/stationaryQubit.cc:796-864 | exactly the branch whose interval holds the draw is taken, and it has positive probability |
| Markov.FibreChoice | quisp/channels/QuantumChannel.cc:164-207 | the same for a photon |
| Markov.MemoryRun | quisp/modules/stationaryQubit.cc:664-864 | from every state and for every time one branch of positive probability is taken, and no branch leads back to the Pauli states |
| Markov.Photon.Pass | quisp/channels/QuantumChannel.cc:139-207 | the drawn branch is applied as a change of the flags, so the photon ends in the drawn state exactly when it was clean before or is lost |
| Markov.LostStaysLost | quisp/channels/QuantumChannel.cc:139-207 | a lost photon stays lost for every length and draw |
| Markov.ShortcutExact | quisp/modules/stationaryQubit.cc:739-767 | not exponentiating when row 0 holds a one is exact for every positive time, except when a Pauli rate is one and the time is even |
| Allocation.PriorityPartition | quisp/modules/RuleEngine.cc:1130-1195 | the unallocated pairs shared with a partner all go, in pool order, to one rule of the first process that lists the partner, the one its pointer names or the front rule when pointers and partners differ in number, and no other rule gets one; without such a process they stay |
| Allocation.Allocator.GivePartner | quisp/modules/RuleEngine.cc:1151-1192 | one pass gives exactly those pairs to the receiving rule, and stops exactly when one would go to a rule other than the front one |
| Allocation.Allocator.Allocate | quisp/modules/RuleEngine.cc:1130-1195 | the three loops compute the allocation, and never stop when all receivers are front rules |
| Tomography.EntryIsReports | quisp/modules/HardwareMonitor.cc:177-206 | in any order of arrival an entry holds exactly the two halves reported under its count id |
| Tomography.SlowestTime | quisp/modules/HardwareMonitor.cc:207-212 | the kept running time is the slowest reported one |
| Tomography.EmittedExactly | quisp/rules/Action.cc:496-530 | in every run the results a node's measuring rule sends have ids 1, 2, ... in order, each with the half measured under that id, the basis and outcome drawn for it, and the running time only with the maximum |
| Tomography.OneFinish | quisp/rules/Action.cc:524-527 | exactly one result of a node carries the running time if and only if the node has made all measurements |
| Tomography.CorrelatesTruePairs | quisp/modules/HardwareMonitor.cc:173-206 | from results of a run arriving in any order, two outcomes stored under one count id come from the two halves of the pair both nodes measured under that id |
| Tomography.AllIdsComplete | quisp/modules/HardwareMonitor.cc:173-206 | once all results of a run have arrived, every id both nodes reached holds both outcomes |
| Tomography.Count | quisp/modules/HardwareMonitor.cc:257-302 | the counting loop gives the four outcome counts and the total of every combination, and stops exactly at an unknown one |
| Tomography.TotalsAddUp | quisp/modules/HardwareMonitor.cc:268-302 | per combination the total is the sum of the four counts |
| Tomography.EveryRecordCounted | quisp/modules/HardwareMonitor.cc:257-302 | the nine totals add up to the number of records |
| Tomography.RatesAreCorrelations | quisp/modules/HardwareMonitor.cc:303-329 | the traces of the reconstructed matrix are the signed sums of the XX, YY and ZZ correlations, whatever the other coefficients are |
| Tomography.RatesSumToOne | quisp/modules/HardwareMonitor.cc:303-329 | the reported fidelity and X, Z and Y rates sum to exactly 1 |
| Tomography.PerfectFidelity | quisp/modules/HardwareMonitor.cc:373-456 | the fidelity is at most 1, and 1 exactly when X and Z outcomes always agreed and Y outcomes always differed |
| Reconstruction.Correlations | quisp/modules/HardwareMonitor.cc:392-438 | the nine two-sided coefficients are the mean products of both outcomes, each over the records of its own two bases |
| Reconstruction.Marginals | quisp/modules/HardwareMonitor.cc:376-442 | the six one-sided ones are the mean outcomes of one node where both measured in the same basis, and the coefficient of the identity is 1 |
| Reconstruction.RatesAreSums | quisp/modules/HardwareMonitor.cc:303-329 | fidelity, X, Z and Y rate are a quarter of 1 and the three correlations, each rate with its own signs |
| Reconstruction.RatePatterns | quisp/modules/HardwareMonitor.cc:303-329 | each is at most 1, and 1 exactly for its own pattern of always equal and always different X, Y and Z outcomes |
| Reconstruction.Hermitian | quisp/modules/HardwareMonitor.cc:449-459 | the reconstructed matrix is Hermitian |
| Reconstruction.StateFitsData | quisp/modules/HardwareMonitor.cc:376-459 | for every two bases the reconstructed matrix predicts the mean product of outcomes that was measured in them |
| PauliFrames.PropagateLinear | quisp/modules/stationaryQubit.cc:346-380 | propagation through any circuit is linear over exclusive or |
| PauliFrames.ReverseUndoes | quisp/modules/stationaryQubit.cc:346-380 | the reversed gate list undoes any circuit with distinct operands |
| PauliFrames.UndoesItself | quisp/modules/stationaryQubit.cc:366-380 | a gate undoes itself on every frame exactly when it is not a CNOT of a qubit with itself, which the code does not exclude |
| PauliFrames.CircuitKeepsProduct | quisp/modules/stationaryQubit.cc:346-380 | no circuit with distinct operands changes whether two error frames commute |
| PauliFrames.NoiseAdds | quisp/modules/stationaryQubit.cc:346-380 | a noisy run is the noise-free run plus every insertion propagated through the gates after it |
| PauliFrames.XPurifyIsNoisy | quisp/modules/stationaryQubit.cc:643-651 | an X purification with gate errors is the noisy run of its gates, then the measurement error on the tool |
| PauliFrames.ZPurifyIsNoisy | quisp/modules/stationaryQubit.cc:653-662 | the same for Z purification |

## Left out

- PipelineInvariant.RunInv: assumes loss-free FIFO channels between the two nodes, the same RuleSet installed at both before the first pair, and one link with one RuleSet; a node that has finished measuring drops further reports, as the program does for a RuleSet that no longer runs.
- EndToEnd.MeasuredDistance: assumes noise-free gates and measurements (errors only on the base pairs); gate errors of single actions are covered by Circuits.NoiseIsInputError and Circuits.NoisyParity, where one of them can already leave an undetected error on the kept half.
- Pointers.PartnerPointsBack: one link without swapping; the swapper's own pointers go stale and are covered by Swapping.ChainAlways instead.
- Swapping.MaximalRun: one pair per hop and one resource per swap; the clause of a plan with more pairs demands N while the action takes one.
- Tomography.RatesSumToOne: every combination has been measured at least once, since the program divides by every total; Tomography.RatesAreCorrelations has no such condition.
- LinkRun.NoShotMissing: a photon that counts for a burst was fired in it; that none of an earlier burst is still under way when the next one begins rests on travel times, which are not part of the model.
- Markov.PowerForm: whole units of time and length; Eigen's fractional powers and floating-point rounding are not modelled.
- Traversal.Engine.Traverse: rules as they are built, a resource clause of the action's own size before it and QNICs assigned; lists and packets, not the qubits' error flags, which EngineClass has for purification rules.
- EngineClass.RuleSet.Traverse: purification rules only; the other kinds are in Traversal.
- EngineClass.RuleSet.ExhaustRule: purification rules only; the check for the end after an action is in Traversal.
- RuleClass.Rule.CheckRun: purification rules only; the other kinds are in Traversal.
- Conditions.MeasuringRule.Drain: a measuring rule by itself; Traversal.MeasureRuns has it inside the traversal.
- RuleClass.Rule.RunSingle: memory errors before the gates and the busy table of the freed tool; the table is in LinkBooks.
- RuleClass.Rule.RunDouble: the same.
- EngineClass.RuleSet.UnlockAndDiscard: the busy table and pool entry of the freed qubit are in LinkBooks.
- Qubits.StationaryQubit.SetFree: time stamps, density matrix and the mixed, excited and relaxed flags.
- Qubits.StationaryQubit.XPurify: memory errors, which can leave the Pauli states; Markov has their distribution.
- Qubits.StationaryQubit.ZPurify: the same.
- LinkBooks.QnicBook.Shoot: the marks of the first and last pulse of a burst.
- Swapping.SwapKeeps: the Bell measurement, its corrections and the pool entries under other addresses.
- PathDivision.PlanRules: addresses and partners only; the QNIC indices copied beside them are left out.
- PathDivision.Fill: the two recursive calls stand in a method of their own, `FillHalves`.
- LinkBooks.QnicBook.Mark: one method for the two table functions that set a qubit busy and free.
- A rule's multimap from partner to qubit is a sequence in the link modules, where every key is the same.
- Pair numbers stand for halves in the pipeline; memory qubits and their reuse are added in `Pointers`.
- Process ids reused after a deletion, hashed RuleSet ids and their truncation to int: ids are distinct here.
- The double-selection actions (types 1011, 1021, 1031, 1061 and the predefined 5555, 5556) as detection claims; their result comparison is in `Verdicts` and `EngineClass`.
- The end-to-end tomography results; that the count of their RuleSet advances while its resource clause fails is shown by `Conditions.CountRunsOut` and `Traversal.SpentCountNeverEnds`.
- QNIC reservation and rejection of connection requests, routing, the application, photon sources and the real-time controller.
- Simulated time, travel times, display, statistics and file output; random draws are inputs.
- Density matrices of single measurements in `measure_density_independent`.
