# SEASI-CORE, verified model

SEASI-CORE decides when an automated workflow step may run. This project models
its state machines in Dafny and proves what their callers rely on. It stands
alone; `dafny verify dfyconfig.toml` checks it.

## What is modelled

- **Approval-gated runner** (`RunnerSpec`, `Runner`). A workflow instance walks
  the first transition out of each state. Before an external effect it seals a
  digest over the resolved input and pauses; a human's decision is verified
  against the input as it resolves then. `Runner` is the object that changes an
  instance field by field, `RunnerSpec` the functions it is proved to compute.
  Handlers and approvers are arbitrary functions; between calls the host may
  replace the workflow data and other instances may draw on the clock and ids.
  The theorems (`RunnerTheorems`, `RunnerLinks`, `RunnerApproval`,
  `RunnerRefinement`, `RunnerCompletion`, with their invariants in `RunnerInvariant`,
  `RunnerBudget`, `RunnerTrace`) speak of every such life; `RunnerOutcomes` says
  in plain terms what one transition and one decision do.
- **Digest binding** (`Json`, `JsonText`, `CanonicalJson`, `IntentBinding`).
  Dictionaries are members in insertion order, so that independence of key order
  is a theorem. The text of a value is printed by an explicit printer, read back
  by `JsonRead`; `CanonicalText` spells out the texts that are hashed.
- **Ledger** (`Ledger`). One table interleaves one hash chain per tenant.
- **Queue of paused effects** (`Pauses`, `HitlLog`, `Hitl`, `HitlStore`,
  `HitlOutcomes`, `HitlThreads`). A pause is what the log says when it is replayed.
  `HitlThreads` lets any number of threads create, decide and append through the
  re-entrant lock, step by step, in every order.
- **Harness and sessions** (`Harness`, `HarnessOutcomes`, `Sessions`,
  `SessionOutcomes`). A child's lines become a
  stream of events, the stream becomes rows of the ledger, and the rows are what
  the **usage report** (`Usage`, `UsageOutcomes`) counts.
- **JSON-RPC server** (`Rpc`, `RpcOutcomes`). Handlers are any functions of a shared state, as
  they share the ledger; `RpcQueue` puts the queue's two methods in their place.
- **Modules** (`Registries`, `Modules`) and **schema references** (`SchemaRefs`).

The hash is any function. A 64-character digest without any collision does not
exist, so a theorem that needs collision freedom asks it of the texts at hand:
the two sealed texts, or the materials and payload texts of the chains compared.

## Where code and documentation part

The model follows the code in each case.

- `rpc/server.py` says that anything unforeseen becomes error -32603. An
  exception of `json.loads` other than a syntax error (an overlong number, too
  deep a nesting) leaves `serve` unanswered: `Rpc.LongNumberEnds` gives a line,
  `Rpc.CrashedIff` and `Rpc.BoundedLinesServed` say when all lines are served.
- The same file calls its rules fail-closed. A late decision answers with an error
  and still appends to the ledger, so a later listing is shorter:
  `RpcQueue.FailingLineShortensList`, with the exact condition in
  `RpcQueue.FailingDecideIff`.
- `harness/process.py` takes every `ValueError` in its loop for a pipe closed by
  `cancel`. A line with an overlong number raises one too: the rest of the output
  is dropped and the stream may still report completion
  (`Harness.LongNumberHidesTheRest`; exactly when, in
  `Harness.CompletedDeliversAll`).
- `tests/test_kernel_hard.py` describes `max_turns=2` as failing on the third
  turn; the stream fails right after the second (`Harness.TurnBudget`).
- The runner's comment on bindings says that a missing path fails the workflow.
  On an approval's return it raises out of `run` and leaves the instance paused,
  for a rejecting decision as well (`RunnerWitness.RefusalEscapes`; exactly when,
  in `RunnerApproval.NotGrantedStays`).
- `ledger/hitl.py` does not consult expired records when it loads a pause; a
  clock that runs back reopens it (`HitlWitness.RollbackRun`; exactly when, in
  `HitlLog.OpenIff`).
- The chain does not commit to a row's time or tenant
  (`Ledger.OnlyCommittedFields`).

## Model

| member | source | states |
|---|---|---|
| `JsonText.PrintInjective` | src/seasi_core/kernel/intent_binding.py:23-27 | the compact text of a JSON value determines the value, members in the order they stand: no two values share a text |
| `JsonText.PrintToInjective` | src/seasi_core/kernel/intent_binding.py:23-27 | the same with any text following that cannot continue a number, so that neighbouring values cannot run into each other |
| `JsonText.DigitsInjective` | src/seasi_core/kernel/intent_binding.py:23-27 | decimal texts are not prefix-free, but two of them followed by something that is no digit are equal only for equal numbers |
| `JsonText.EscapeToInjective` | src/seasi_core/kernel/intent_binding.py:23-27 | string escapes (section 7 of RFC 8259) never make two strings look alike, also in front of a following text |
| `JsonRead.ReadsBack` | src/seasi_core/kernel/intent_binding.py:23-27 | a reader of RFC 8259 texts gets every printed value back, with nothing left over |
| `CanonicalText.EscapesSpelled` | src/seasi_core/kernel/intent_binding.py:23-27 | of the escapes a reader accepts, the ones that are written; any other character stands for itself |
| `CanonicalJson.CanonicalIff` | src/seasi_core/kernel/intent_binding.py:23-27 | canonical texts are equal iff the values are the same up to the order of keys at every level; this is finer than Python's `==`, which takes `True` for `1` |
| `CanonicalJson.OrderInsensitive` | src/seasi_core/kernel/intent_binding.py:23-27 | reordering the keys of a payload does not change its canonical text |
| `CanonicalJson.SortedUnique` | src/seasi_core/kernel/intent_binding.py:23-27 | a dictionary has one listing in key order, so sorting is a normal form |
| `Text.LexLeqIff` | src/seasi_core/kernel/intent_binding.py:25 | the order of keys is that of the first differing code point, with a prefix first |
| `CanonicalText.CanonicalReads` | src/seasi_core/kernel/intent_binding.py:23-27 | a canonical text reads back as the same value with ascending keys at every level |
| `CanonicalText.CanonicalExample` | src/seasi_core/kernel/intent_binding.py:23-27 | one text character by character: sorted keys, no spaces, an escape, a raw non-ASCII character, a negative number, words |
| `CanonicalText.MaterialText` | src/seasi_core/kernel/intent_binding.py:38-47 | the text that is sealed, field by field |
| `IntentBinding.MaterialIff` | src/seasi_core/kernel/intent_binding.py:38-47 | the sealed text determines tenant id, case, project, capability and payload (up to key order), and only these |
| `IntentBinding.VerifyIntent` | src/seasi_core/kernel/intent_binding.py:64-96 | collects the mismatches in order, and passes iff tenant id, capability, digest, actor and expiry are all in order |
| `IntentBinding.NoReasonIff` | src/seasi_core/kernel/intent_binding.py:64-96 | no reason is found iff each of the five checks holds |
| `IntentBinding.ReasonsAre` | src/seasi_core/kernel/intent_binding.py:79-96 | each reason is given iff its own check fails, and they come in the order of the checks, none twice |
| `IntentBinding.SealedVerifiesIff` | src/seasi_core/kernel/intent_binding.py:64-96 | an intent sealed with `bind_intent` verifies for an execution iff the full tenant scope, the capability and the payload match, though only two of these are compared directly |
| `Text.StripEmptyIff` | src/seasi_core/kernel/intent_binding.py:91-92 | an actor's name strips to nothing iff every character is white space |
| `Text.StripIs` | src/seasi_core/kernel/intent_binding.py:91-92 | stripping leaves a stretch of the text that neither begins nor ends with white space, and drops white space only |
| `Workflows.CheckGraph` | src/seasi_core/contracts/workflows.py:72-91 | a definition is accepted iff state names and transitions are distinct, all endpoints are states and a terminal state exists; each error names what is wrong |
| `Workflows.ConsistentIff` | src/seasi_core/contracts/workflows.py:72-91 | what acceptance asks, over the fields of states and transitions |
| `Workflows.FromIsFilter` | src/seasi_core/contracts/workflows.py:96-98 | the transitions out of a state are exactly the declared ones with that origin |
| `Workflows.FromInOrder` | src/seasi_core/contracts/workflows.py:96-98 | the transitions out of a state stand in the order of their declaration, each once |
| `Workflows.FirstIff` | src/seasi_core/orchestration/runner.py:188-197 | the transition that a run takes out of a state is the one declared first; there is none iff no transition leaves the state |
| `Workflows.EndingPathDistinct` | src/seasi_core/orchestration/runner.py:186-207 | the path of first transitions, if it ends, visits no state twice |
| `Workflows.LoopNeverEnds` | src/seasi_core/orchestration/runner.py:186-207 | a path that comes back to a state never ends |
| `Workflows.EndingPathShort` | src/seasi_core/orchestration/runner.py:186-207 | pigeonhole: an ending path has fewer transitions than there are states |
| `Runner.NeutralRunner.Create` | src/seasi_core/orchestration/runner.py:88-109 | a step budget below one is refused |
| `Runner.NeutralRunner.Start` | src/seasi_core/orchestration/runner.py:113-136 | refused iff a referenced capability is not registered; otherwise a running instance in the initial state with one event |
| `Runner.NeutralRunner.ResolveInput` | src/seasi_core/orchestration/runner.py:365-385 | the nested loops over bindings and path segments compute the static input overlaid with the values found, or the first path that breaks |
| `Runner.NeutralRunner.Seal` | src/seasi_core/orchestration/runner.py:217-255 | first arrival at a governed effect, field by field: digest over the resolved input, two clock readings, one intent, paused, one event, or the two ways it can raise |
| `Runner.NeutralRunner.NewIntent` | src/seasi_core/orchestration/runner.py:224-232 | creation and expiry are separate clock readings, and an intent that would expire by its creation is refused |
| `Runner.NeutralRunner.Dispatch` | src/seasi_core/orchestration/runner.py:257-283 | policy check, input, handler call, data update, events and clearing of the pending effect, in that order, with the state left behind by each failure |
| `Runner.NeutralRunner.Advance` | src/seasi_core/orchestration/runner.py:213-298 | one transition: plain move, seal, or dispatch |
| `Runner.NeutralRunner.ResolvePending` | src/seasi_core/orchestration/runner.py:300-351 | one human decision and everything it changes |
| `Runner.NeutralRunner.RunLocked` | src/seasi_core/orchestration/runner.py:167-209 | the loop ends on every graph and does what the recursive specification does |
| `Runner.NeutralRunner.Run` | src/seasi_core/orchestration/runner.py:138-165 | nothing happens to a final instance, a second run on an active instance is refused without a change, and the mark is gone on every way out |
| `RunnerSpec.StepDecreases` | src/seasi_core/orchestration/runner.py:186-207 | every turn that goes on charges a step or uses up the one decision of the call |
| `RunnerOutcomes.TurnOutcome` | src/seasi_core/orchestration/runner.py:188-207 | a turn takes the transition declared first and charges one step for it, or fails or raises with it |
| `RunnerOutcomes.EndOutcome` | src/seasi_core/orchestration/runner.py:188-195 | where no transition leaves, the run completes iff the state is declared terminal, and fails otherwise |
| `Text.SplitIs` | src/seasi_core/orchestration/runner.py:378-383 | the parts of a dotted path hold no dot, and joined with dots they are the path |
| `RunnerOutcomes.WalkIff` | src/seasi_core/orchestration/runner.py:378-383 | a path leads to a value iff a chain of objects does, each holding the next under the next part |
| `RunnerOutcomes.InputIs` | src/seasi_core/orchestration/runner.py:365-385 | the resolved input: the static values, overlaid key by key with what the last binding's path leads to |
| `RunnerOutcomes.MissingIs` | src/seasi_core/orchestration/runner.py:380-381 | otherwise the first path that leads nowhere is the one reported |
| `RunnerOutcomes.SealSpelled` | src/seasi_core/orchestration/runner.py:353-363 | what a seal hashes: tenant, capability, workflow, revision, states and resolved input, spelled out as a text |
| `RunnerOutcomes.SealOutcome` | src/seasi_core/orchestration/runner.py:217-255 | the instance after first arrival at a governed effect, intent and event field by field, or the expiry that cannot be sealed |
| `RunnerOutcomes.MergeIs` | src/seasi_core/orchestration/runner.py:263-265 | a handler's output wins over the old data, key by key |
| `RunnerOutcomes.InputSpelled` | src/seasi_core/orchestration/runner.py:276-278 | what the input digest of a dispatch hashes, spelled out as a text |
| `RunnerOutcomes.InputDigestIff` | src/seasi_core/orchestration/runner.py:276-278 | equal input digests mean equal tenant, capability and input, unless the hash collides on those two texts |
| `RunnerOutcomes.DispatchOutcome` | src/seasi_core/orchestration/runner.py:257-293 | the instance after a dispatch that goes through, with the event and both digests |
| `RunnerOutcomes.DispatchRefused` | src/seasi_core/orchestration/runner.py:257-265 | what stands in the way of a dispatch: the policy first, then the input, then the handler; nothing else changes |
| `RunnerOutcomes.StrayDecision` | src/seasi_core/orchestration/runner.py:311-318 | a decision about another intent is noted with its id; one whose input has vanished raises |
| `RunnerOutcomes.RefusalOutcome` | src/seasi_core/orchestration/runner.py:326-334 | a refusal fails the instance and names who refused |
| `RunnerOutcomes.ApprovalGranted` | src/seasi_core/orchestration/runner.py:343-351 | an approval that covers the texts at hand, names a human and comes in time lets the instance run on |
| `RunnerOutcomes.ApprovalUnsound` | src/seasi_core/orchestration/runner.py:336-341 | any other approval is noted and the instance goes on waiting |
| `RunnerOutcomes.PolicyHolds` | src/seasi_core/orchestration/runner.py:395-406 | in every life no handler is called for an effect that the policy forbids, and each call's effect is the catalog's |
| `RunnerTheorems.RunContract` | src/seasi_core/orchestration/runner.py:138-209 | one call of `run` consults the approver at most once, returns paused, completed or failed, and is paused iff both pending fields are set, the transition being the first out of the current state |
| `RunnerTheorems.HistoryIsTrace` | src/seasi_core/orchestration/runner.py:213-351 | over every life the history is a run of one automaton whose state is the instance's status: external dispatches only after request and grant of the same intent |
| `RunnerLinks.DispatchesLinked` | src/seasi_core/orchestration/runner.py:257-351 | in every life each governed dispatch follows at once the grant of the intent requested last, under which its handler was called, and carries that intent's digest, which seals the approved input |
| `RunnerTrace.LiveTraced` | src/seasi_core/orchestration/runner.py:300-351 | every action of a life keeps history and fields in step, and a granted approval still covers the input as it resolves |
| `RunnerTheorems.StepsAreExact` | src/seasi_core/orchestration/runner.py:197-207 | steps are the `transition.applied` and `approval.requested` events together, and stay below the budget unless the instance has failed |
| `RunnerTheorems.CompletedWalk` | src/seasi_core/orchestration/runner.py:188-207 | a completed instance stands in a terminal state that nothing leaves, visited no state twice, and paid exactly for the path and its gates |
| `RunnerTheorems.LoopNeverCompletes` | src/seasi_core/orchestration/runner.py:186-207 | no life of an instance whose path comes back to a state completes |
| `RunnerBudget.LiveCore` | src/seasi_core/orchestration/runner.py:167-351 | status, pending fields, counters and seals agree at every rest point of every life, whatever the host puts into the data |
| `RunnerApproval.GrantedIff` | src/seasi_core/orchestration/runner.py:318-351 | an approval is granted iff the decision names this intent, approves, names a human, is in time, and the input still resolves to the sealed values |
| `RunnerApproval.NotGrantedStays` | src/seasi_core/orchestration/runner.py:300-351 | without a grant nothing is dispatched; the call escapes by an exception iff the decision names this intent and a bound path has vanished; it fails iff it is a resolvable refusal |
| `RunnerApproval.ApprovedIsWhatRuns` | src/seasi_core/orchestration/runner.py:257-283 | in every life the handler of an external effect receives the input that was sealed and approved |
| `RunnerApproval.LiveApproval` | src/seasi_core/orchestration/runner.py:213-298 | in every life each call stands in the history as a dispatch with its input digest, and each external call with its approval digest |
| `RunnerWitness.RefusalEscapes` | src/seasi_core/orchestration/runner.py:318-330 | a concrete run: the host removes bound data while the instance waits, and the human's refusal raises out of `run` and leaves the instance paused and unrefused |
| `RunnerRefinement.LivedOnCourse` | src/seasi_core/orchestration/runner.py:167-298 | at any moment of a life in which the host leaves the data alone, an instance that has not failed is where the pure interpreter is after as many transitions |
| `RunnerRefinement.CompletedRefinesInterpreter` | src/seasi_core/orchestration/runner.py:167-298 | a completed life has the interpreter's final state and data and has made its dispatches in its order |
| `RunnerRefinement.CompletedLivesAgree` | src/seasi_core/orchestration/runner.py:167-298 | two completed lives agree, however they were split into calls and however policy, budget, clock and ids differ |
| `RunnerCompletion.CompletesIffBudget` | src/seasi_core/orchestration/runner.py:197-255 | on a permitted, resolving path of n transitions and g gates, whatever approvers answer and however calls are cut and clocks run: an instance that ended and was not refused completed iff n + g < max_steps, and any other failure is the budget's |
| `RunnerCompletion.GrantCounts` | src/seasi_core/orchestration/runner.py:138-209 | a call of `run` on a paused instance adds one grant iff the decision is believed, however far it then runs |
| `RunnerCompletion.GrantsAreGates` | src/seasi_core/orchestration/runner.py:213-351 | in every life an instance that has not failed has had one grant for each gate passed; a paused one has had fewer than its path has gates |
| `RunnerCompletion.EnoughGrantsFinish` | src/seasi_core/orchestration/runner.py:138-209 | after a call that returns, an instance on such a path that has a grant for every gate and was not refused has ended, and completed iff n + g < max_steps |
| `Ledger.MaterialSplits` | src/seasi_core/ledger/store.py:38-42 | the four chained fields can be read back from the hashed text, even with a separator inside the event type |
| `Ledger.HeadCommits` | src/seasi_core/ledger/store.py:138-155 | two valid chains with the same last hash have the same length and agree row by row on event id, type, payload, previous hash and hash |
| `Ledger.RewriteDetectedIff` | src/seasi_core/ledger/store.py:138-155 | against a valid chain, another row sequence verifies under the same head iff it differs in none of those fields |
| `Ledger.OnlyCommittedFields` | src/seasi_core/ledger/store.py:38-42 | verification does not depend on the time, the tenant or the sequence number of a row |
| `Ledger.DeletionDetected` | src/seasi_core/ledger/store.py:138-155 | a valid chain without some rows before its last one does not verify |
| `Ledger.PrefixVerifies` | src/seasi_core/ledger/store.py:138-155 | every prefix of a valid chain is valid |
| `Ledger.ChainsVerifyIff` | src/seasi_core/ledger/store.py:73-106 | after any interleaved appends a tenant's chain verifies iff none of its accepted envelopes brought a digest that is not its payload's |
| `Ledger.AppendVerifiesIff` | src/seasi_core/ledger/store.py:73-106 | one accepted append keeps every chain as it was, but for a false digest in the chain of its own tenant |
| `Ledger.HonestKeepsChain` | src/seasi_core/ledger/store.py:73-106 | an absent, empty or true digest never breaks a chain, whatever the hash |
| `Ledger.TenantIsolation` | src/seasi_core/ledger/store.py:110-125 | a row of one tenant changes no query about another |
| `Ledger.Newest` | src/seasi_core/ledger/store.py:110-116 | `tail` is the reverse of the tenant's last rows; a negative limit is no limit |
| `Ledger.SelectIs` | src/seasi_core/ledger/store.py:118-134 | a query returns the rows of the table that match it and no others |
| `Ledger.SelectInOrder` | src/seasi_core/ledger/store.py:110-134 | a query's rows come in the order of the table, each once, by tenant, by tenant and type, or by type alone |
| `Ledger.VerifiesIff` | src/seasi_core/ledger/store.py:138-155 | a chain verifies iff each row names its predecessor's hash, the first one zeros, and hashes its four fields as the text with bars between them |
| `Ledger.AppendedRow` | src/seasi_core/ledger/store.py:73-106 | the row of an accepted envelope, field by field: its number, time and payload, the tenant's last hash, and the text it hashes |
| `Ledger.EventLedger.Find` | src/seasi_core/ledger/store.py:118-134 | the scan returns the matching rows in sequence order |
| `Ledger.EventLedger.Append` | src/seasi_core/ledger/store.py:73-106 | the new row hangs on the last hash of its tenant, and a taken event id changes nothing |
| `Ledger.EventLedger.Tail` | src/seasi_core/ledger/store.py:110-116 | the backward scan returns the tenant's last rows, newest first |
| `Ledger.EventLedger.VerifyChain` | src/seasi_core/ledger/store.py:138-155 | the loop returns true iff every row of the tenant follows its predecessor and carries the hash of its contents |
| `Pauses.PauseRoundTrip` | src/seasi_core/contracts/hitl.py:38-80 | a pause is read back from its record unchanged iff it is valid; otherwise the record is refused |
| `Pauses.ReadBackIff` | src/seasi_core/contracts/hitl.py:38-80 | which pauses are valid, over their times, status and actor |
| `HitlOutcomes.LatestIs` | src/seasi_core/ledger/hitl.py:106-113 | loading starts from the last created record of the id, and fails iff one of them cannot be read |
| `HitlOutcomes.FirstResolvedIs` | src/seasi_core/ledger/hitl.py:114-119 | the first decided record that carries a resolved pause wins |
| `HitlOutcomes.CreateRow` | src/seasi_core/ledger/hitl.py:43-45 | the record of a new pause, field by field |
| `HitlOutcomes.DecisionRow` | src/seasi_core/ledger/hitl.py:75-104 | an accepted decision writes the word it was given, as decision and as status, the actor, the time, and an intent good for 900 seconds |
| `HitlOutcomes.LateRow` | src/seasi_core/ledger/hitl.py:68-73 | a late decision writes that the pause has run out, and nothing else |
| `HitlOutcomes.AnswerIs` | src/seasi_core/ledger/hitl.py:59-104 | the intent returned has the pause's tenant, capability and digest, the actor, and expires 900 after the reading |
| `HitlOutcomes.DecisionSticks` | src/seasi_core/ledger/hitl.py:59-120 | in every run an accepted decision is what loading finds next, and it cannot be decided again |
| `HitlLog.ListedIff` | src/seasi_core/ledger/hitl.py:47-57 | a pause is listed iff it is the tenant's last created record of its id, is pending, and no decided or expired record of the tenant names it |
| `HitlLog.ArrangeIs` | src/seasi_core/ledger/hitl.py:57 | the listing is sorted by creation time, is a permutation, and keeps the order of simultaneous pauses |
| `HitlLog.DecideKeepsOnce` | src/seasi_core/ledger/hitl.py:59-104 | a decision never gives an id a second decided record, with no assumption on clocks or ids |
| `HitlLog.TwoViews` | src/seasi_core/ledger/hitl.py:47-73 | with fresh ids, a valid actor and a clock that does not run back, `decide` succeeds iff the pause is listed and before its deadline |
| `HitlLog.OpenIff` | src/seasi_core/ledger/hitl.py:47-120 | without the steady clock: `decide` succeeds iff the pause is before its deadline and is listed or hidden only by an expired record |
| `HitlLog.ClockRollback` | src/seasi_core/ledger/hitl.py:106-120 | the gap between the two: after an expired record a clock set back lets a decision through on a pause that is no longer listed |
| `HitlWitness.RollbackRun` | src/seasi_core/ledger/hitl.py:59-120 | a concrete run of three operations: the pause expires on a late decision, leaves the listing, and is decided all the same once the clock is set back |
| `HitlLog.DecidedLeavesList` | src/seasi_core/ledger/hitl.py:47-57 | a decided or expired pause is no longer listed |
| `HitlLog.DecideKeepsSound` | src/seasi_core/ledger/hitl.py:59-104 | a decision keeps decided records before their deadlines and apart from expired ones |
| `Hitl.ApplyLog` | src/seasi_core/ledger/hitl.py:43-104 | an operation whose event id is taken leaves the replayed log as it was; any other adds exactly the intended change of the queue |
| `Hitl.DecidedAtMostOnce` | src/seasi_core/ledger/hitl.py:59-104 | over any run of operations no pause id is decided twice |
| `Hitl.RunsAreSound` | src/seasi_core/ledger/hitl.py:59-104 | with fresh ids and a steady clock, decisions are made before the deadline and no pause is both decided and expired |
| `Hitl.ChainsStayValid` | src/seasi_core/ledger/hitl.py:43-104 | what the queue appends keeps every tenant's chain valid |
| `HitlStore.HitlStore.Create` | src/seasi_core/ledger/hitl.py:43-45 | appends the pause's record, or nothing when the event id is taken |
| `HitlStore.HitlStore.LoadPause` | src/seasi_core/ledger/hitl.py:106-120 | the two loops find the last created record, and the first decided record that carries a resolved pause |
| `HitlStore.HitlStore.Decide` | src/seasi_core/ledger/hitl.py:59-104 | which record is appended and what is returned in each case, an expired record and a rejection among them |
| `HitlStore.HitlStore.ListPending` | src/seasi_core/ledger/hitl.py:47-57 | building the dictionary, popping decided and expired ids, filtering and sorting yields the listing |
| `HitlThreads.Linearizable` | src/seasi_core/ledger/store.py:75-98 | in every interleaving of threads the table is what doing the operations one after another produces, and at most one thread is inside the lock |
| `HitlThreads.HolderProceeds` | src/seasi_core/ledger/store.py:67-69 | the thread that holds the lock can always move on: a decision takes the lock it already holds a second time |
| `HitlThreads.OneDecisionPerPause` | src/seasi_core/ledger/hitl.py:59-104 | in every interleaving at most one decided record per pause id, whatever clocks and ids |
| `HitlThreads.ChainsUnderThreads` | src/seasi_core/ledger/store.py:73-106 | no interleaving breaks a chain |
| `HitlThreads.DecisionsInTime` | src/seasi_core/ledger/hitl.py:59-104 | in every interleaving with fresh ids and a steady clock, each decision is dated before its pause's deadline and none joins an expired record |
| `Text.StripIdempotent` | src/seasi_core/kernel/registry.py:76-81 | normalising a key twice is normalising it once |
| `Registries.Registry.Add` | src/seasi_core/kernel/registry.py:49-53 | a blank key or a taken key is refused without a change; otherwise one entry is added |
| `Registries.RegisterKeeps` | src/seasi_core/kernel/registry.py:49-71 | a registration makes its key known, changes no other entry and makes no other key known |
| `Registries.ConsistentWith` | src/seasi_core/kernel/module_registry.py:51-67 | the nested loop passes iff manifests are disjoint, repeat nothing, and declare only registered capabilities |
| `Modules.Duplicates` | src/seasi_core/sdk/module.py:128-136 | exactly the ids that occur more than once |
| `Modules.SortedIds` | src/seasi_core/sdk/module.py:87-92 | the manifest's id lists hold the shipped ids, once each |
| `Modules.ManifestAscends` | src/seasi_core/sdk/module.py:87-98 | a built manifest lists exactly the shipped ids, in code-point order |
| `Modules.ModuleBuilder.Build` | src/seasi_core/sdk/module.py:67-98 | a module is built iff everything in it is its own and declared once; each error names a violation |
| `Modules.InstallModule` | src/seasi_core/sdk/module.py:101-125 | the three registries after an install, failed or not, and the error |
| `Modules.InstalledHolds` | src/seasi_core/sdk/module.py:101-125 | an install that goes through leaves each capability, each workflow and the manifest under its trimmed id, none of which was taken, and nothing else |
| `Modules.InstallKeepsCoherent` | src/seasi_core/sdk/module.py:101-125 | an install of a built module keeps the registries coherent even when it fails, and its two final checks never fire |
| `Modules.InstalledWorkflowsStart` | src/seasi_core/orchestration/runner.py:113-119 | after any sequence of installs `start` rejects none of the registered workflows |
| `Modules.RetryRefused` | src/seasi_core/sdk/module.py:113-120 | what a failed install registered stays: the same module is refused the next time |
| `Harness.StreamEnds` | src/seasi_core/harness/process.py:71-99 | a stream opens with the spawn, closes with a final kind, and completes iff nothing cut it short and the child returned zero |
| `Harness.TurnBudget` | src/seasi_core/harness/process.py:73-91 | turns never exceed the limit, and the turn that reaches it is followed at once by the budget failure, which is last |
| `Harness.EventsAreLines` | src/seasi_core/harness/process.py:77-83 | the events in between are the first lines, one event a line, in order |
| `HarnessOutcomes.LineIs` | src/seasi_core/harness/process.py:114-127 | an object is an event of the kind it claims, without that claim in its data; any other line is a message that holds it |
| `HarnessOutcomes.StreamIs` | src/seasi_core/harness/process.py:71-99 | the whole stream from its script: one event a line up to the first that delivers nothing or spends the budget, and the closing event that this calls for |
| `Harness.CompletedDeliversAll` | src/seasi_core/harness/process.py:90-99 | a completed stream delivered every line iff every line was readable |
| `Harness.LongNumberHidesTheRest` | src/seasi_core/harness/process.py:90-97 | a concrete script: after a line with an overlong number the next line is dropped, and the stream reports completion |
| `Harness.ProcessHarness.Start` | src/seasi_core/harness/process.py:51-99 | the generator yields exactly that stream and leaves no process behind |
| `Harness.ProcessHarness.Pump` | src/seasi_core/harness/process.py:76-91 | the loop over the child's lines, with its cancel flag and its three ends |
| `Sessions.SessionService.RunSession` | src/seasi_core/services/sessions.py:73-117 | on the ledger itself: running, then every event in order, then exactly one final state, completed iff the last event is; a refused append ends the run where it stands |
| `Sessions.RunAddsTurns` | src/seasi_core/services/sessions.py:79-117 | what a run adds: one row of the session's tenant for each state and each event, in order, with type, session id, adapter and data, holding as many turns as the stream |
| `SessionOutcomes.RunSays` | src/seasi_core/services/sessions.py:79-117 | the records of a run in plain words: running first, then each event with its data, then completed iff the last event is |
| `SessionOutcomes.RunDraws` | src/seasi_core/services/sessions.py:79-117 | the records of a run take the event ids and the times that are drawn for them, in order |
| `SessionOutcomes.SessionEnds` | src/seasi_core/services/sessions.py:73-107 | the last record says completed iff the harness stayed in scope, no line spent the budget, nothing was cancelled and the child returned zero; otherwise failed |
| `Sessions.StreamInReport` | src/seasi_core/rpc/methods.py:152-179 | after a run the session's line in the usage report counts the turns it had before and the turns of the stream |
| `Rpc.LineDiscipline` | src/seasi_core/rpc/server.py:134-179 | notifications first, then one response iff the line is malformed, invalid or a request with an id; the request's id comes back, bad lines get null |
| `RpcOutcomes.RequestLine` | src/seasi_core/rpc/server.py:102-179 | a line with version 2.0, a named method, parameters that are an object if any, and an id gets one response under that id, last; without an id none |
| `RpcOutcomes.OtherLine` | src/seasi_core/rpc/server.py:134-179 | any other value gets -32600, a text that is no JSON -32700, white space nothing, and no handler runs |
| `RpcOutcomes.UnknownMethod` | src/seasi_core/rpc/server.py:70-72 | an unknown method gets -32601 under the request's id |
| `RpcOutcomes.RefusedParams` | src/seasi_core/rpc/server.py:73-86 | parameters that the method does not take get -32602 |
| `RpcOutcomes.HandledRequest` | src/seasi_core/rpc/server.py:73-88 | a request that reaches its handler: the notes in order if the method streams, then the result or the error under the id, -32603 for an unforeseen exception |
| `Rpc.ResponsesInAll` | src/seasi_core/rpc/server.py:126-179 | the number of responses is the number of lines that call for one |
| `Rpc.InertLinesIndependent` | src/seasi_core/rpc/server.py:134-179 | a line that comes to no handler (blank, malformed, invalid, unknown method, refused parameters) can be exchanged or taken out: state and all other output stay |
| `Rpc.LineInContext` | src/seasi_core/rpc/server.py:126-179 | any line that is served leaves the output before it alone and reaches the output after it only through the handlers' state |
| `RpcQueue.FailingDecideIff` | src/seasi_core/ledger/hitl.py:68-73 | a decide line that is answered with an error changes the handlers' state iff it finds the pause past its deadline and its event id is new |
| `RpcQueue.DecideLineRow` | src/seasi_core/rpc/methods.py:209-221 | a decide line on an open pause writes the word it brought and answers with the intent that was sealed |
| `RpcQueue.DecideLineFails` | src/seasi_core/rpc/methods.py:209-221 | the code with which a decide line fails: -32602 for an id that is none, 100 for a pause that is unknown, settled or late, and the unforeseen for the rest |
| `RpcQueue.ListLineIs` | src/seasi_core/rpc/methods.py:205-207 | a list line shows the tenant's pending pauses, oldest first, each as it is written, and changes nothing |
| `RpcQueue.FailingLineShortensList` | src/seasi_core/rpc/methods.py:205-221 | a concrete session: such a failing line empties the listing that the next line answers with |
| `Rpc.FatalEnds` | src/seasi_core/rpc/server.py:150-156 | a line on which the parser raises something other than a syntax error is not answered, and no later line is read |
| `Rpc.CrashedIff` | src/seasi_core/rpc/server.py:150-156 | the server ends by an exception iff some line is such a line |
| `Rpc.BoundedLinesServed` | src/seasi_core/rpc/server.py:150-156 | lines whose numbers have at most 4300 digits and whose nesting is bounded are all served, given a parser that raises only syntax errors on those |
| `Rpc.LongNumberEnds` | src/seasi_core/rpc/server.py:150-156 | a number of 4301 digits ends the server, whatever lines follow, given a parser that cannot convert it |
| `Rpc.Server.Serve` | src/seasi_core/rpc/server.py:126-179 | the loop writes the outputs of the served lines in order, threads the handlers' state, and leaves by an exception iff a line crashes the parser |
| `Rpc.Server.TakeLine` | src/seasi_core/rpc/server.py:134-179 | one turn of the loop: what one line writes and the state it leaves |
| `SchemaRefs.NoRefsLeft` | tools/export_schemas.py:59-83 | no reference into `#/$defs/` is left |
| `SchemaRefs.ReferenceIs` | tools/export_schemas.py:67-68 | what is a reference into the definitions, and that its name is what follows the last slash |
| `SchemaRefs.SlugReference` | tools/export_schemas.py:69-71 | a reference to a model with a slug becomes `seasi/<slug>/v1` |
| `SchemaRefs.ItemsInOrder` | tools/export_schemas.py:81-82 | items are rewritten one by one, in order |
| `SchemaRefs.RewriteIdempotent` | tools/export_schemas.py:59-83 | rewriting twice is rewriting once |
| `SchemaRefs.RewriteIff` | tools/export_schemas.py:67-77 | rewriting succeeds iff every name met, in the document or in a definition it embeds, has a slug or an object for a definition |
| `SchemaRefs.LastWriterWins` | tools/export_schemas.py:59-83 | for any object and any key the result holds what the last writer of that key wrote: a later sibling over the embedded definition, the definition over an earlier sibling; nothing else is there |
| `SchemaRefs.EmbedsDefinition` | tools/export_schemas.py:72-73 | a reference without a slug is replaced by its rewritten definition |
| `SchemaRefs.RewriteWellFormed` | tools/export_schemas.py:59-83 | the rewritten objects have distinct keys at every level |
| `Usage.ReportCounts` | src/seasi_core/rpc/methods.py:152-179 | each line of the report counts exactly its session's turns and tokens, over all records of the tenant or the newest million |
| `Usage.ReportTotals` | src/seasi_core/rpc/methods.py:166-179 | totals over the lines are totals over the records of known sessions: nothing twice, nothing lost |
| `Usage.SessionsAre` | src/seasi_core/rpc/methods.py:154-165 | the report lists every created session once |
| `UsageOutcomes.RecordAdds` | src/seasi_core/rpc/methods.py:166-178 | what one record adds: a turn for a message or a tool call, the numbers of a usage record, nothing else |
| `UsageOutcomes.ReadableIff` | src/seasi_core/rpc/methods.py:175-178 | which usage records can be added up |
| `UsageOutcomes.ReportLine` | src/seasi_core/rpc/methods.py:154-165 | a line's references are those of the last record that created its session in the tenant |
| `UsageOutcomes.PlaceKeepsOrder` | src/seasi_core/rpc/methods.py:154-165 | a session created again keeps its place in the report, a new one comes last |
| `Usage.UsageSummary` | src/seasi_core/rpc/methods.py:152-179 | the two loops with their dictionary updated in place compute that report, or raise on a count that is no integer |

## Left out

- SQLite, files, standard streams and child processes: the table is a sequence of rows with unique event ids, the input a list of lines, the child a script of lines with a return code.
- SHA-256, UUIDs, nonces and UTF-8 encoding: any hash on texts, ids as parameters, payload texts as characters.
- Floating-point numbers, dictionary keys that are not strings, and strings with surrogates in payloads; Python's limit on the digits of an integer, except where a parser meets it.
- The text of the payload column: rows hold the payload itself. Writing and reading it back sorts the keys, which no lookup or digest here can see (`CanonicalJson.OrderInsensitive`); a row whose payload is not an object makes verification raise and is not modelled.
- Field lengths and patterns of the contracts, except the actor's length where it decides a branch; session id, artifact reference and schema version of a pause, which are carried along.
- Timestamps as texts: times are integers, and a lifetime is a number of units.
- Wording of failure reasons and log records; the event sink, which is handed each event of the history as it is appended; structured logging; the tenant context; the workflow checksum in the first event.
- Handlers with a memory: a capability's handler is a function of tenant, capability and input.
- Handlers that raise anything but a workflow error, and hosts that change an instance's status, state or pending fields.
- Aliasing of nested dictionaries: data are values.
- Adapters, the path guard, and the RPC methods and parameter models other than the queue's `decide` and `list`: each is a table or a single check.
- `max_tokens` of a harness budget, which the harness code never enforces.
- Modules.InstallModule: handlers of a module are not registered anywhere by the source and are carried as their capability ids; a workflow that names a blank capability is refused as one with an unknown capability, where the source raises its blank-key error.
- Registries.ConsistentWith: does not say which violation is reported, since the order of the manifests only decides that.
- Ledger.EventLedger.VerifyChain: rebuilding the envelope compares event ids as the rows hold them, so other spellings of one UUID are not modelled.
- HitlStore.HitlStore.Decide: an unknown decision text is not modelled; the RPC method passes one of two.
- HitlStore.HitlStore.ListPending: reads the table once; the source reads it three times, each under the lock.
- HitlThreads.Linearizable: reads under the lock that a thread already holds are single steps, and a plain event has none of the queue's types.
- SchemaRefs.Rewrite: asks for a rank of the embedded definitions, which exists when they are acyclic; on a cycle the source exhausts its stack.
- Sessions.SessionService.RunSession: exceptions other than a scope violation and a refused append, which leave a session running, and a consumer that abandons the stream are not modelled; the scope is judged before the stream begins, the child is drained before its events are recorded, and the command line in the spawn event is left empty.
- Rpc.Server.Serve: failures of reading or writing a line are not modelled.
- RpcQueue.FailingLineShortensList: the two texts are given by what the parser and the validator make of them.
- Usage.UsageSummary: tokens that are floating-point numbers are not modelled; `int` of a text and `str` of a container are any functions.
