# Semora, modelled and proved

Semora runs agent attempts that can crash, stall or be replaced, and drives their tool effects
through a durable ledger. This project models that protocol and proves what it promises, in five
connected layers over one description of a ledger branch:

1. **The ledger.** `Ledger` says what every operation makes of one branch: steps
   `absent/ready/running/done` with versions, a lease with fencing tokens, reconciliation decisions,
   the input queue, and `commit_transition`. The classes `MemorySteps` and `PostgresSteps` work in
   place on their own tables and are proved against that description, branch by branch.
   `LedgerLaws`, `LeaseLaws`, `DecisionLaws`, `Transitions` and `Scope` hold the laws over whole runs
   and say when each operation is accepted; `StoreAgreement` runs any script of calls against both
   stores.
2. **The effect journal.** `JournalProgram` is the program one worker runs. `Journal` splits it at
   every `await`, so that any number of workers, lease renewals, hosts' decisions and crashes come
   between any two steps; `JournalSolo` shows the split is the program. On it rest the bound on
   handler runs (`JournalBound`), the provenance of results (`JournalProvenance`,
   `JournalAttempts`) and the stable projection (`JournalProjection`). `Reconciliation` shows what
   hosts are told about effects in doubt and what a decision makes of the next attempt.
3. **Suspension and fork.** `Suspension` has `_park`, `resume`, `recover` and `_finalize` as worker
   programs under the same leases (`SuspensionProgram` has them as calls on the store);
   `SuspensionLaws` proves that no accepted answer is lost and nothing starts early, `SuspensionEdges`
   says exactly where this ends, and `SuspensionLimits` gives two runs beyond it. `SuspensionWords` has
   what each step writes and announces, and `SuspensionSolo` that the actions write the same. `Forking` has the copy loop of `fork`,
   `ForkLaws` what it leaves, wherever it is cut short, and `ForkRuns` the same loop as actions among
   other workers, with the source changing meanwhile; `Policy` has the decisions of a tool round and
   `RefusedRound` the end of a round in which somebody said no.
4. **The transcript.** `Entries` reads a log, `TranscriptStore` keeps one, `Branches` writes one;
   `EntryLaws` says by places what is read of any log, `Json` by paths what stripping keeps, and
   `TranscriptLaws` and `RoundTrip` prove that reader and writer agree through any life of a
   conversation. The id of an entry is a term over the parent's id and the stripped message, so
   different entries never share one.
5. **Inputs.** `Inputs`, `Requests` and `Boundary` drain the queue at the model boundary;
   `BoundaryLaws` proves the exact split into admitted and discarded, `BoundaryWords` what exactly the
   screen is shown and the model is asked, `Delivery` at-most-once delivery
   for any number of attempts with a crash anywhere, and `DeliverySolo` that its actions are the
   boundary.

`Keys` names the durable steps, `Workers` says who can still write, `Values` and `Json` are the data,
`Views` a whole store branch by branch, `Selection` says what it is to keep some of a list in order,
and `Wrappers` has the option and result types.

Time is an input: the verdict on somebody else's lease is a parameter of the abstract `Acquire` and a
clock reading in the two stores, and leaf markers are stamped by a clock that never repeats. The agent
graph, the model and the policies are nondeterministic: a handler may return anything, a gate may
answer anything, a round may park or end at any point.

## What turned out differently from the documentation

- A fork that **crashes or is replaced mid-copy** does not leave doubt everywhere: the calls it had not
  reached are simply absent on the target, and the next attempt there runs them again, even those the
  source finished (`CrashBeforeTheCopyRunsAgain`). On a fresh target a begun call is safe exactly when
  the copy had committed its intent (`CutIsSafeExactlyWhenReached`, and
  `ForkedCallsAreSafeExactlyWhenCopied` for any interleaving).
- An **empty** `admit_inputs` or `discard_inputs` with a stale token is refused by the in-memory
  ledger and accepted by PostgreSQL, which returns before its fence. `EmptyBatchDisagrees` has the
  exact condition and `Replay` shows that it is the only disagreement.
- `MemoryTranscript.read` with a limit between the length of the log and twice it returns too few
  entries: the start of the slice turns negative. `LimitedReadIsTheTail` has the exact condition.
- A handler may **begin** after another worker parked its call (`LateHandlerUnderPark`): exactly when
  its start was accepted before and its worker can be replaced first
  (`HandlerMayBeLateExactlyWhenReplaceable`). No *start* is accepted before every answer is there
  (`NoStartBeforeEveryAnswer`).
- `run` looks at the continuation before it takes the lease, or not at all without a prompt, so it
  can park over a round that still waits (`UnreadRunParksOver`). It keeps what the laws promise exactly
  when there is no live continuation at the moment it has its lease, or its lease is lost already
  (`UnreadRunIsSafeExactlyWhen`); the suspension laws hold for all runs under that condition, which is
  the test `recover` makes.
- Fencing needs nonempty owners and tokens that were handed out (`FencingProvisosAreNeeded`), and
  conversation scoping needs ids without slashes in exactly the cases `CollideExactlyWhen` lists.
- Two leaf markers for one target at one time are one entry, and then a rewind is lost
  (`EqualTimesLoseARewind`, with the exact condition in `MarkerTakesEffectExactlyWhen`).

## Model

| member | source | states |
|---|---|---|
| `MemoryStore.MemorySteps.Start` | packages/semora-store/src/semora_store/ledger.py:353-360 | a start succeeds exactly from absent or ready, under a token that is not stale, and makes the step running one version later; no other branch changes |
| `MemoryStore.MemorySteps.FinishEffect` | packages/semora-store/src/semora_store/ledger.py:362-375 | only a running effect is completed, the same result is accepted again without a change, and another result or state is refused |
| `MemoryStore.MemorySteps.ResolveEffect` | packages/semora-store/src/semora_store/ledger.py:377-406 | fence, then validation, then the remembered payload, then version and status; an applied decision moves the step and is remembered with its whole payload |
| `MemoryStore.MemorySteps.WriteControl` | packages/semora-store/src/semora_store/ledger.py:408-412 | control state is overwritten as done, one version later, unless fenced |
| `MemoryStore.MemorySteps.Forget` | packages/semora-store/src/semora_store/ledger.py:418-423 | only running intent is cleared, to absent with the version kept and raised |
| `MemoryStore.MemorySteps.Acquire` | packages/semora-store/src/semora_store/ledger.py:425-441 | the holder renews under its token even when expired, a live lease of another yields zero, and everything else issues the next token |
| `MemoryStore.MemorySteps.Release` | packages/semora-store/src/semora_store/ledger.py:443-447 | only the holder releases, the token survives, and the lease can be taken at once |
| `MemoryStore.MemorySteps.EnqueueInput` | packages/semora-store/src/semora_store/ledger.py:449-457 | a new id joins the end of its branch's queue, a known id changes nothing |
| `MemoryStore.MemorySteps.ListInputs` | packages/semora-store/src/semora_store/ledger.py:459-464 | the records of one branch in submission order, each input once |
| `MemoryStore.MemorySteps.ClaimInput` | packages/semora-store/src/semora_store/ledger.py:466-475 | an input that is neither admitted nor discarded becomes claimed, a missing one is no error |
| `MemoryStore.MemorySteps.AdmitInputs` | packages/semora-store/src/semora_store/ledger.py:477-484 | the loop over the ids admits all that are not discarded, or the fence refuses all |
| `MemoryStore.MemorySteps.DiscardInputs` | packages/semora-store/src/semora_store/ledger.py:486-495 | the loop over the ids discards all that exist, or the fence refuses all |
| `MemoryStore.MemorySteps.CommitTransition` | packages/semora-store/src/semora_store/ledger.py:497-545 | judging all effects first and writing afterwards is the same as completing, writing and enqueuing in order with all or nothing |
| `PostgresStore.PostgresSteps.Start` | packages/semora-store-pg/src/semora_store_pg/postgres.py:116-133 | the conditional upsert starts exactly what the ledger starts, over rows |
| `PostgresStore.PostgresSteps.CompleteEffect` | packages/semora-store-pg/src/semora_store_pg/postgres.py:194-239 | insert, conditional update and the look afterwards complete, accept or refuse as the ledger does, from absent and from running |
| `PostgresStore.PostgresSteps.ResolveEffect` | packages/semora-store-pg/src/semora_store_pg/postgres.py:141-192 | a decision leaves the state the ledger prescribes and is refused exactly when the ledger refuses it |
| `PostgresStore.PostgresSteps.Forget` | packages/semora-store-pg/src/semora_store_pg/postgres.py:274-284 | the conditional update clears running intent only |
| `PostgresStore.PostgresSteps.Acquire` | packages/semora-store-pg/src/semora_store_pg/postgres.py:286-308 | the upsert on the lease row renews, refuses or takes over with the next token |
| `PostgresStore.PostgresSteps.Release` | packages/semora-store-pg/src/semora_store_pg/postgres.py:310-325 | only the holder's row is given up, with its token kept |
| `PostgresStore.PostgresSteps.AdmitInputs` | packages/semora-store-pg/src/semora_store_pg/postgres.py:377-391 | one update admits what the ledger's loop admits, and an empty batch returns before the fence |
| `PostgresStore.PostgresSteps.DiscardInputs` | packages/semora-store-pg/src/semora_store_pg/postgres.py:393-407 | one update discards what the ledger's loop discards, and an empty batch returns before the fence |
| `PostgresStore.PostgresSteps.CommitTransition` | packages/semora-store-pg/src/semora_store_pg/postgres.py:409-457 | writing while checking, with the rollback of the transaction, accepts, refuses and ends as the ledger does |
| `PostgresStore.EmptyBatchDisagrees` | packages/semora-store-pg/src/semora_store_pg/postgres.py:377-407 | the two stores answer a batch differently exactly when it is empty and its token is stale |
| `StoreAgreement.CallBoth` | packages/semora-store/src/semora_store/ledger.py:330-551 | one call on both stores: related states, and equal answers unless the batch is empty under a stale token |
| `StoreAgreement.AnswersTellApart` | packages/semora-store/src/semora_store/ledger.py:330-551 | an answer says everything the store said: two outcomes that answer alike are the same, and a refusal is answered as one, so where the stores answer alike nothing is hidden |
| `StoreAgreement.Replay` | packages/semora-store-pg/src/semora_store_pg/postgres.py:116-457 | for every script over any branches both stores stay in step, end in the state the ledger prescribes, and agree on every call but those exact ones |
| `Transitions.CommitAllOrNothing` | packages/semora-store/src/semora_store/ledger.py:497-545 | a transition is accepted exactly when its keys are distinct, effects and controls are disjoint, every effect is acceptable in the state it began from, and the token is not stale; a refusal changes nothing; success completes every effect, writes every control and inserts exactly the new inputs in order |
| `Transitions.CommitRepeated` | packages/semora-store/src/semora_store/ledger.py:497-545 | repeating an accepted transition is accepted, changes no effect and inserts no input |
| `Transitions.ControlsInAnyOrder` | packages/semora-store/src/semora_store/ledger.py:534-536 | the order in which controls are written does not matter |
| `LedgerLaws.Conservation` | packages/semora-store/src/semora_store/ledger.py:353-423 | over any run: starts = forgets + retries + completions + (1 if running), the version counts the changes, running exactly when the version is odd |
| `LedgerLaws.DoneStays` | packages/semora-store/src/semora_store/ledger.py:362-423 | a done step that is not written as control state never changes again |
| `LedgerLaws.DecisionsBind` | packages/semora-store/src/semora_store/ledger.py:377-406 | a decision id, once applied, keeps its payload for good |
| `LedgerLaws.AppliedOnce` | packages/semora-store/src/semora_store/ledger.py:389-397 | a decision id is applied at most once in any run |
| `LedgerLaws.DecisionTargets` | packages/semora-store/src/semora_store/ledger.py:398-405 | a decision changes only the running step whose version it names |
| `LedgerLaws.DecisionMeetsLatestStart` | packages/semora-store/src/semora_store/ledger.py:398-405 | the version an applied decision names is the one the latest start produced |
| `LedgerLaws.ReplayIsInert` | packages/semora-store/src/semora_store/ledger.py:389-396 | replaying applied decisions any number of times after any later history changes nothing |
| `DecisionLaws.DecisionAcceptedExactlyWhen` | packages/semora-store/src/semora_store/ledger.py:377-406 | a decision is accepted if and only if it passes the fence, the host vouches for the old workers, key, id and reason have text, the version is positive, a retry has no value, a provider key that is given has text, and it is new and meets its running version or was applied with every parameter equal |
| `DecisionLaws.EveryRefusalIsTold` | packages/semora-store/src/semora_store/ledger.py:377-406 | which error each refused decision gets, exactly: fence first, then form, then a known id with other parameters or a step that is not the one it decides; a refusal changes nothing |
| `DecisionLaws.AcceptedDecisionDoes` | packages/semora-store/src/semora_store/ledger.py:389-406 | a new decision settles or releases its step one version on and is remembered with every parameter; one applied before changes nothing |
| `DecisionLaws.DecisionsNeedAuthority` | packages/semora-store/src/semora_store/ledger.py:554-583 | nothing is changed by a decision whose host does not vouch for the old workers, or that is not well made |
| `DecisionLaws.RetriesAreDecisions` | packages/semora-store/src/semora_store/ledger.py:377-406 | in every run the retries counted for a step are the remembered decisions that released it, each id once |
| `LedgerLaws.TokensBelong` | packages/semora-store/src/semora_store/ledger.py:425-447 | with nonempty owners each token belongs to one owner, and tokens handed out never go back |
| `LedgerLaws.AcceptedTokensRise` | packages/semora-store/src/semora_store/ledger.py:547-551 | the nonzero tokens of writes that passed the fence form a nondecreasing sequence |
| `LedgerLaws.FencingProvisosAreNeeded` | packages/semora-store/src/semora_store/ledger.py:425-447 | an empty owner inherits a released token, and a token never handed out passes the fence |
| `LedgerLaws.InputsOnlyAdvance` | packages/semora-store/src/semora_store/ledger.py:449-495 | no operation loses, rewrites or reorders an input, and its status never goes back |
| `LedgerLaws.QueueListsEachOnce` | packages/semora-store/src/semora_store/ledger.py:449-464 | the queue of every reachable branch lists each of its inputs exactly once |
| `LeaseLaws.FencedExactlyWhen` | packages/semora-store/src/semora_store/ledger.py:547-551 | an operation is refused at the fence if and only if it presents a nonzero token older than the last one issued, and no refusal of any kind changes anything |
| `LeaseLaws.LiveLeaseIsKept` | packages/semora-store/src/semora_store/ledger.py:425-441 | over any run in which a lease is neither given up nor found expired, it stays with its owner under its token, renewals included, and everybody else who asks is turned away |
| `LeaseLaws.TakeoverFencesOff` | packages/semora-store/src/semora_store/ledger.py:425-441 | a lease nobody has or that ran out goes to whoever asks, under a token that makes every older one stale, and nothing else changes |
| `LeaseLaws.OnlyTheHolderReleases` | packages/semora-store/src/semora_store/ledger.py:443-447 | only the holder gives a lease up; it may still write until the next worker takes over, which fences it off |
| `LeaseLaws.ListingGrowsAtTheEnd` | packages/semora-store/src/semora_store/ledger.py:449-464 | a new input is listed once, last and pending; a known one changes no listing |
| `Scope.WellNamedApart` | packages/semora-store/src/semora_store/ledger.py:228-244 | different conversation and branch pairs are filed apart when the ids that matter hold no slash |
| `Scope.SameBranchApart` | packages/semora-store/src/semora_store/ledger.py:228-248 | one branch id under two conversations and under none is three branches, unconditionally |
| `Scope.CollideExactlyWhen` | packages/semora-store/src/semora_store/ledger.py:243-244 | two different scopes share a branch exactly when one is the other with part of the id moved across a slash |
| `Scope.SlashesCollide` | packages/semora-store/src/semora_store/ledger.py:243-244 | two callers with slashes in their ids who share one branch |
| `Scope.ScopesDoNotInterfere` | packages/semora-store/src/semora_store/ledger.py:228-327 | whatever differently filed scopes do in between, a scope's branch is what its own calls alone make it |
| `Keys.FamiliesAreApart` | packages/semora/src/semora/journal.py:31-53 | the six key families are pairwise disjoint |
| `Keys.KeysAreInjective` | packages/semora/src/semora/journal.py:31-53 | within a family, different calls and requests have different keys |
| `Keys.FinishedEffectsAreImmutable` | packages/semora-store/src/semora_store/ledger.py:362-423 | once a tool or model step is done, no sequence of framework operations changes its status, value or version |
| `Keys.FrameworkConserves` | packages/semora-store/src/semora_store/ledger.py:353-423 | conservation holds of every effect key in every run of framework operations |
| `Workers.OnlyTheLatestWrites` | packages/semora/src/semora/runtime.py:741-762 | a worker that passes the fence holds the last token issued, and every other worker is fenced |
| `JournalProgram.EffectJournal.Tool` | packages/semora/src/semora/journal.py:113-155 | case by case: a done step is answered, a running one without leave to rerun is reported with its version, a stale token is refused, and none of these runs the handler or changes the branch; otherwise the handler runs once and the step ends done with the value or the error it raised, absent after a nothing-happened signal, and running at the version its start produced after an interruption |
| `JournalProgram.EffectJournal.FinishTool` | packages/semora/src/semora/journal.py:135-155 | by the way the handler ends: a value or an exception is the recorded result and the answer, a nothing-happened signal clears the intent, an interruption leaves it in doubt, and the last two answer nothing |
| `JournalProgram.EffectJournal.Model` | packages/semora/src/semora/journal.py:79-111 | as for tools, but an exception of the handler clears the intent and is passed on, and only a response is recorded |
| `JournalProgram.EffectJournal.ProjectOnce` | packages/semora/src/semora/journal.py:157-180 | an existing marker settles the call, or is an error if it holds no record; without a policy the record is shown and nothing is written; otherwise what the policy made of the record is marked, and exactly that is shown |
| `JournalSolo.NeverGuessed` | packages/semora/src/semora/journal.py:113-155 | the handler runs only from absent, ready, or running with leave to rerun; a done step yields its record, a running one its version, and neither changes |
| `JournalSolo.AnswersAreRepeated` | packages/semora/src/semora/journal.py:113-134 | whatever the framework does afterwards, a later attempt gives the same answer and does not run the handler |
| `JournalSolo.AttemptIsTheProgram` | packages/semora/src/semora/journal.py:79-155 | with nobody in between, the interleaved actions of an attempt do to the store exactly what the program does, and the world counts exactly the handler run, the quiet signal, the allowed rerun and the result of that attempt |
| `JournalSolo.InterruptedIsReported` | packages/semora/src/semora/journal.py:119-148 | after an attempt whose handler was interrupted, and anything that does not write the step, every attempt without leave to rerun reports the version of that start, changes nothing and does not run |
| `JournalSolo.ShownIsShownAgain` | packages/semora/src/semora/journal.py:157-180 | what one attempt marked or met is what every later attempt shows, with any record, token and policy and whatever came in between that does not write the marker |
| `JournalSolo.ProjectionIsTheProgram` | packages/semora/src/semora/journal.py:157-180 | with nobody in between, the actions that show a call leave the store, show the record and ask the policy exactly as the program does |
| `Journal.EveryEventIsCounted` | packages/semora/src/semora/journal.py:79-180 | each action adds to the counts of handler runs, quiet signals, results, allowed reruns and policy questions exactly what happened in it |
| `Journal.EveryCopyIsCounted` | packages/semora/src/semora/runtime.py:421-430 | a fork's intent is counted when the target accepts it and never otherwise, and so is the result it read |
| `JournalBound.HandlerRunsAreBounded` | packages/semora/src/semora/journal.py:113-155 | in every interleaving of any number of workers and forks, handler runs of one effect and intents a fork copied for it are together at most the runs that signalled nothing happened, plus one, plus the applied retries, plus the reruns that were allowed |
| `JournalBound.OnlyRetriesAllowMoreRuns` | packages/semora/src/semora/journal.py:113-133 | where no worker may rerun a running step, handler runs and copied intents are at most the runs that signalled nothing happened, plus one, plus the number of remembered decisions that released the step |
| `JournalProvenance.LateWritesMiss` | packages/semora/src/semora/journal.py:90-155 | a result, a forget, a copied result or the forget before a rerun that changes the store comes from the holder of the last token and finds the step running; the first three find the very version their own start produced |
| `JournalProvenance.PlayOrderly` | packages/semora/src/semora/runtime.py:741-762 | every interleaving of leased workers keeps each live worker the owner of the running step it started, renewals that retake the lease included |
| `JournalProvenance.ResultProvenance` | packages/semora/src/semora/journal.py:124-155 | a committed result is what the handler of the latest successful start returned, what a fork read in its source when it committed that start, or what a decision bound to that start's version says |
| `JournalAttempts.AttemptsReturnOnce` | packages/semora/src/semora/journal.py:135-155 | a start belongs to one worker and has at most one result, returned or copied and never both, so provenance names one value |
| `JournalProjection.ProjectionIsStable` | packages/semora/src/semora/journal.py:157-180 | after the marker is written, in every continuation: marker and raw record are unchanged, post-tool policy is not asked again, and whoever comes to show the call shows the marker's record |
| `Reconciliation.UnresolvedEffects` | packages/semora/src/semora/runtime.py:464-497 | of the latest recorded round, and of no other, each running call once where it stands, in model order, with its arguments and the version a decision must name |
| `Reconciliation.DecisionsSettleTheNextAttempt` | packages/semora/src/semora/runtime.py:499-535 | a listed call can be decided; a confirmed result is answered without the handler, a retry runs it once more, and deciding again changes nothing even after that run |
| `Reconciliation.DoubtsHaveVersions` | packages/semora/src/semora/runtime.py:475-497 | every listed version is one a decision may name |
| `Suspension.EveryCallIsRouted` | packages/semora/src/semora/runtime.py:285-297 | under distinct external ids each parked call is answered apart from every other |
| `Suspension.RoutedIsParked` | packages/semora/src/semora/runtime.py:289-293 | an answer only ever goes to a call of the round with that external id |
| `SuspensionProgram.ParkedBranch.Park` | packages/semora/src/semora/runtime.py:606-656 | a round is parked exactly when it defers nothing outside, reuses no external id, meets no objection and is not empty; then one transition writes the index of every call and the waiting continuation without answers and no other step, all calls are announced, and otherwise nothing is written |
| `SuspensionProgram.ParkedBranch.Answer` | packages/semora/src/semora/runtime.py:285-300 | an external id of no live call changes nothing; otherwise exactly the continuation changes, by this answer for a call with this id, and what is announced is the calls that still have none, in order, or that the round can be finished |
| `SuspensionProgram.ParkedBranch.Recover` | packages/semora/src/semora/runtime.py:335-355 | a live round is announced by its unanswered calls, or can be finished; without one, a history that owes a call the recorded round does not have is a mismatch, and any other goes on |
| `SuspensionProgram.ParkedBranch.Finalize` | packages/semora/src/semora/runtime.py:675-703 | every answer becomes that call's approval or denial, the attempt is cancelled if and only if somebody refused, and exactly the continuation changes, to say it is being finished with the same calls and answers |
| `SuspensionProgram.ParkedBranch.Complete` | packages/semora/src/semora/runtime.py:722-730 | exactly the continuation changes, to one that is closed under the ids of its calls in order |
| `SuspensionWords.UndecidedAreUnanswered` | packages/semora/src/semora/runtime.py:890-896 | the undecided calls are each call without an answer, where it stands, in model order |
| `SuspensionWords.DecidedIsAllAnswered` | packages/semora/src/semora/runtime.py:299-300 | nothing is undecided if and only if every call has an answer |
| `SuspensionWords.ParkIsWritten` | packages/semora/src/semora/runtime.py:638-656 | an accepted park writes every call's index and the waiting continuation, and no other step; a stale one writes nothing |
| `SuspensionWords.AnswerIsTaken` | packages/semora/src/semora/runtime.py:285-300 | the live round awaits an external id exactly when one of its calls has it, and then an accepted answer is stored for such a call beside the answers there were |
| `SuspensionSolo.ResumeTakesTheAnswer` | packages/semora/src/semora/runtime.py:285-312 | the actions of a resume change nothing for an id nobody awaits or under a lost lease, and otherwise store the answer and go on to finish exactly when it was the last |
| `SuspensionSolo.RecoverLooksFirst` | packages/semora/src/semora/runtime.py:335-355 | recovery changes nothing; it goes on from the history only where nothing is live, and finishes a live round only where every call is answered |
| `SuspensionSolo.FinishingSaysSo` | packages/semora/src/semora/runtime.py:698-703 | finishing first writes that the round is being finished, with its calls and answers, and goes on from these |
| `SuspensionSolo.ParkingWritesTheRound` | packages/semora/src/semora/runtime.py:606-656 | the action that parks writes a whole round or nothing: nothing if it is empty, shares an external id, or the lease is lost |
| `SuspensionSolo.CompletingClosesTheRound` | packages/semora/src/semora/runtime.py:724-729 | the last action of a finished round closes it under the ids of its calls, or nothing under a lost lease |
| `RefusedRound.FinishRound` | packages/semora/src/semora/runtime.py:658-730 | a replaced worker does nothing; otherwise each answer becomes its call's approval or denial, the nodes are gone through in their turn, no model request is sent when any answer refused, only a refusal or the controls end it early, and the round ends closed under the ids of its calls with no other step changed |
| `SuspensionLaws.EveryRunIsSafe` | packages/semora/src/semora/runtime.py:159-187 | in every interleaving of parks, resumes, recoveries and runs in which no run meets a live continuation under its lease, with crashes and takeovers, the stored answers are the accepted ones, for calls of the round only, and what an unfenced worker carries along is what the store holds |
| `SuspensionLaws.AnswerStays` | packages/semora/src/semora/runtime.py:285-312 | an accepted answer stays in the stored continuation until the round is closed, unless the same call is answered again |
| `SuspensionLaws.ClosesOnlyDecided` | packages/semora/src/semora/runtime.py:658-730 | a round is completed or parked over only when every one of its calls is answered |
| `SuspensionLaws.FinishesWithEveryAnswer` | packages/semora/src/semora/runtime.py:675-715 | a worker finishing a round that can still write works from exactly the accepted answers, one for every call |
| `SuspensionLaws.NoStartBeforeEveryAnswer` | packages/semora/src/semora/runtime.py:285-355 | an accepted start finds no live park or one with every call answered; a handler that begins earlier belongs to a fenced worker |
| `SuspensionLaws.SuspensionKeepsToControls` | packages/semora/src/semora/runtime.py:638-656 | parking, answering and finishing write control keys only |
| `SuspensionEdges.UnreadRunIsSafeExactlyWhen` | packages/semora/src/semora/runtime.py:159-187 | a run that did not look under its lease leaves every live round to those who finish it, in every guarded continuation, if and only if it met no live continuation or its lease was lost |
| `SuspensionEdges.UnreadRunIsARecovery` | packages/semora/src/semora/runtime.py:335-355 | where nothing is parked, a run that did not look does what recovery does |
| `SuspensionEdges.HandlerMayBeLateExactlyWhenReplaceable` | packages/semora/src/semora/runtime.py:741-762 | from any safe world in which a call's start was accepted, some guarded continuation has its worker enter the handler under a waiting park if and only if the worker does not hold the lease or leases may run out |
| `SuspensionLimits.LateHandlerUnderPark` | packages/semora/src/semora/runtime.py:336-355 | a run in which a replaced worker enters its handler after its successor parked that call |
| `SuspensionLimits.UnreadRunParksOver` | packages/semora/src/semora/runtime.py:159-187 | one run in which an attempt that did not look under its lease parks over a waiting round |
| `Forking.UnansweredToolCalls` | packages/semora/src/semora/runtime.py:818-840 | of the latest response, each call that no later message answers, where it stands, in model order; none where there is no response |
| `Forking.KeepIsUnanswered` | packages/semora/src/semora/runtime.py:818-840 | dropping the answered ids leaves exactly the calls of a response that no message after it answers, in order |
| `Forking.Copy` | packages/semora/src/semora/runtime.py:418-430 | the copy loop leaves every branch but the target alone and makes of the target what the law of copying says, also when a branch is forked onto itself |
| `ForkLaws.CopyMeaning` | packages/semora/src/semora/runtime.py:421-430 | every call gets what the source knows, no other step changes, and exactly the calls copied as finished are reported |
| `ForkLaws.FreshTarget` | packages/semora/src/semora/runtime.py:421-430 | on a fresh target done becomes done with the same value, running or ready becomes running, absent stays absent |
| `ForkLaws.CutLeaves` | packages/semora/src/semora/runtime.py:421-430 | what a copy into a fresh target leaves when it is cut short anywhere: the source's result, doubt where only the intent was committed, and nothing for the calls it did not reach |
| `ForkLaws.CrashBeforeTheCopyRunsAgain` | packages/semora/src/semora/runtime.py:421-430 | a fork that crashes before it reaches a call the source finished, after which an attempt runs that call without new authority |
| `ForkLaws.SafeExactlyWhenBegun` | packages/semora/src/semora/journal.py:119-134 | with nobody on the way to a call, no continuation without new authority runs it if and only if its step is running or done |
| `ForkLaws.CutIsSafeExactlyWhenReached` | packages/semora/src/semora/runtime.py:418-442 | for every cut of a copy into a fresh target: a call the source began is run by no continuation without new authority if and only if the copy had committed its intent |
| `ForkLaws.BegunIsKnown` | packages/semora/src/semora/runtime.py:421-430 | whatever the target held, a copy that ends leaves every call the source began running or done |
| `ForkLaws.DoubtIsNotRerun` | packages/semora/src/semora/journal.py:119-134 | in any interleaving without new authority, a step in doubt or done never has its handler entered |
| `ForkLaws.ForkNeverReruns` | packages/semora/src/semora/runtime.py:373-442 | after a copy that ran to its end the target's handler never runs for a call the source began, without a retry decision or leave to rerun |
| `ForkRuns.CopiedCallsAreNotRerun` | packages/semora/src/semora/runtime.py:418-442 | among any leased workers, with the source changing and the target changing hands between any two copies: where a copied intent was accepted and no new authority came since, the call is entered from there on at most by workers whose own start came before, and by nobody where only forks started it |
| `ForkRuns.ForkedCallsAreSafeExactlyWhenCopied` | packages/semora/src/semora/runtime.py:418-442 | where only forks started a call, and no authority to run it came since before the first of them, no continuation without new authority enters its handler if and only if a copied intent for it was accepted |
| `ForkRuns.CopyActionsAreTheLoop` | packages/semora/src/semora/runtime.py:421-430 | with nobody in between and a source that stands still, the interleaved copy actions are the loop |
| `ForkRuns.CopiedIsTheSourcesRecord` | packages/semora/src/semora/runtime.py:423-429 | a result a fork read as finished stays the source's record whatever the source does meanwhile |
| `Policy.PolicyRunner.PrepareTools` | packages/semora/src/semora/policy.py:62-72 | every tool not declared safe becomes a barrier, and approval tools are routed through the gate |
| `Policy.PolicyRunner.DecideTool` | packages/semora/src/semora/policy.py:97-122 | a record that was not named for another look stands; an approved call is what the resume policy makes of it; any other is what the gate makes of it, except that an approval tool is not let through and that behind a suspension only another suspension is left; the verdict is noted with the arguments it was reached on, and a suspension without an id is an error that leaves no trace |
| `Policy.DecideDecides` | packages/semora/src/semora/policy.py:97-134 | every decision is the verdict those rules give, noted and remembered as they say |
| `Policy.MarkerMeans` | packages/semora/src/semora/policy.py:74-76 | the batch marker is set exactly when an earlier call of this round suspended |
| `Policy.FreshCallsRunBeforeTheFirstSuspension` | packages/semora/src/semora/policy.py:97-134 | a fresh call is let through exactly when the gate passes it and nothing earlier in the round suspended |
| `Policy.RegateAsksAgain` | packages/semora/src/semora/policy.py:108-115 | a recorded call stands without the gate unless it was named for it, and then is gated like a fresh one |
| `Json.StrippedIsStable` | packages/semora/src/semora/transcript.py:51-57 | stripping leaves no volatile field at any depth |
| `Json.StableIsKept` | packages/semora/src/semora/transcript.py:51-57 | a value without a volatile field anywhere is left as it is |
| `Json.StrippedAlongPaths` | packages/semora/src/semora/transcript.py:51-57 | of any value, stripping keeps what lies along every path that goes through no volatile field, leaf and shape, and nothing lies along any other path |
| `Json.SameStrippedExactlyWhen` | packages/semora/src/semora/transcript.py:51-57 | two bodies are the same to the transcript if and only if they agree along every path that goes through no volatile field |
| `Entries.ActiveTip` | packages/semora/src/semora/transcript.py:128-132 | the two passes over the entries find the last marker's target or the last entry chained after it |
| `Entries.FollowParents` | packages/semora/src/semora/transcript.py:133-142 | the parent walk ends on any entries, cyclic ones included, with the branch at the tip |
| `Entries.MessagesAtCursor` | packages/semora/src/semora/transcript.py:152-168 | the messages at a cursor, or an error when the log has no such entry |
| `Entries.WalkVisitsOnce` | packages/semora/src/semora/transcript.py:133-142 | on arbitrary logs no entry is visited twice and no buried entry is returned |
| `EntryLaws.ChainedMeans` | packages/semora/src/semora/transcript.py:122-142 | under an id lies the last entry chained under it, if there is one |
| `EntryLaws.BuriedMeans` | packages/semora/src/semora/transcript.py:133-142 | what is buried is what some tombstone names |
| `EntryLaws.TipMeans` | packages/semora/src/semora/transcript.py:128-132 | the tip is the last chained entry, or what the last leaf marker points at if that came later |
| `EntryLaws.WalkPasses` | packages/semora/src/semora/transcript.py:133-142 | on any log a walk passes from each entry to its parent until there is none or one it has seen, and the branch is what it passed, oldest first, without what is buried |
| `EntryLaws.ReadingAtACursor` | packages/semora/src/semora/transcript.py:152-168 | reading at a cursor is an error if and only if the log chains no entry under it, and otherwise gives the messages of the entries the walk from it passes, in order |
| `TranscriptStore.MemoryTranscript.Append` | packages/semora-store/src/semora_store/transcript.py:123-132 | an entry is appended exactly when its conversation holds no entry with its id; other conversations are untouched |
| `TranscriptStore.MemoryTranscript.Read` | packages/semora-store/src/semora_store/transcript.py:134-138 | the entries in arrival order, with the source's slice under a limit |
| `TranscriptStore.LimitedReadIsTheTail` | packages/semora-store/src/semora_store/transcript.py:134-138 | a limited read returns the newest entries exactly when the limit is at most the length of the log or at least twice it |
| `TranscriptStore.WindowIsTheNewest` | packages/semora-store/src/semora_store/transcript.py:134-138 | how many of the newest entries a read returns for every limit, negative ones included, and that it is exactly these, in arrival order |
| `TranscriptLaws.WalkIsTheChain` | packages/semora/src/semora/transcript.py:133-142 | on logs the writer made the walk is the chain the tip's id spells out, and the guard against cycles never fires |
| `TranscriptLaws.CursorsAreStable` | packages/semora/src/semora/transcript.py:152-168 | in every well-formed extension of a log an entry reads as before, and the active tip reads as the active branch |
| `Branches.TranscriptWriter.Record` | packages/semora/src/semora/transcript.py:200-216 | a message is recorded once; when it was there already a marker moves the tip, and the writer moves on in both cases |
| `Branches.TranscriptWriter.Rewind` | packages/semora/src/semora/transcript.py:218-221 | the tip and the writer move without deleting anything |
| `Branches.Branch.Open` | packages/semora/src/semora/transcript.py:264-280 | an attempt takes over the active branch: tip, messages and ids |
| `Branches.Branch.Replace` | packages/semora/src/semora/transcript.py:282-293 | the loop finds the longest common prefix, rewinds to it and appends the rest |
| `Branches.Branch.Append` | packages/semora/src/semora/transcript.py:295-301 | messages are recorded in order with the ids they got |
| `RoundTrip.TranscriptRoundTrip` | packages/semora/src/semora/transcript.py:253-301 | after any opens, appends, replaces and crashes between writes, an open attempt and a fresh reader agree on messages, tip and ids; after a replace these are the desired history, after an append the old history and the new messages |
| `RoundTrip.EveryLifeIsSound` | packages/semora/src/semora/transcript.py:253-301 | the log stays well formed through every life of a conversation |
| `RoundTrip.AnyWritersKeepTheLog` | packages/semora/src/semora/transcript.py:200-221 | a whole run of writes by any number of writers, whose clocks may agree, only extends the log, keeps it well formed and keeps everybody's position on it |
| `RoundTrip.CursorsSurviveAnyWriters` | packages/semora/src/semora/transcript.py:152-168 | on a conversation any writers made from nothing, no later writes of any writers change what is read at an entry |
| `RoundTrip.MarkerTakesEffectExactlyWhen` | packages/semora/src/semora/transcript.py:101-119 | a marker moves the tip exactly when its id is new or the tip is there already |
| `RoundTrip.EqualTimesLoseARewind` | packages/semora/src/semora/transcript.py:101-119 | were a clock to stand still, a second rewind to one entry would be dropped, and reader and writer part |
| `RoundTrip.MadeAtOneTime` | packages/semora/src/semora/transcript.py:200-221 | the log of that example is what a writer makes at one single time |
| `Inputs.DueIsEverythingOpen` | packages/semora/src/semora/runtime.py:791-805 | a claim goes through every open input the history does not hold, each once, and nothing else |
| `Inputs.InputSession.Claim` | packages/semora/src/semora/runtime.py:791-805 | the loop claims what is due and remembers it; a replaced attempt claims nothing |
| `Inputs.InputSession.Admit` | packages/semora/src/semora/runtime.py:807-810 | the named items are admitted, items without a queued id touch nothing |
| `Inputs.InputSession.Discard` | packages/semora/src/semora/runtime.py:812-815 | the named items are discarded, items without a queued id touch nothing |
| `Boundary.ExecutionBoundary.RunModelNode` | packages/semora/src/semora/effects.py:190-207 | a cancelled attempt ends at the node, with no request, no record and no input touched; any other passes the boundary |
| `Boundary.ExecutionBoundary.RunNodes` | packages/semora/src/semora/effects.py:190-220 | over any run of nodes, each model node is asked in its turn with the request its own boundary lets through, all of them recorded in order, and only a stop or a lost lease ends the run early; a cancelled attempt sends none |
| `Boundary.ExecutionBoundary.Admit` | packages/semora/src/semora/effects.py:222-271 | where the model is asked: the request, its record, and the exact split of prefetched and fresh ids into admitted and discarded under a screen that rewrites or drops; where the attempt ends, for the reason the screen or the steering gave: nothing recorded and at most the dropped ids settled; where the lease was lost: the queue as it was |
| `Boundary.ExecutionBoundary.ClaimLate` | packages/semora/src/semora/effects.py:285-296 | an input that lands while the turn finishes cancels the stop and is held for the next boundary |
| `BoundaryLaws.GatheredSplitsExactly` | packages/semora/src/semora/effects.py:222-271 | under a screen that rewrites or drops, every gathered input ends admitted or discarded and never both, only gathered ids are kept, and no other input changes, whatever the token |
| `BoundaryLaws.QueueStaysTagged` | packages/semora/src/semora/runtime.py:444-462 | inputs submitted encoded under their own id stay readable under it through every operation on the queue |
| `BoundaryLaws.EncodedIsTagged` | packages/semora/src/semora/runtime.py:924-932 | an encoded item decodes to itself and is submitted as the queue expects |
| `BoundaryLaws.LateIsPrefetched` | packages/semora/src/semora/effects.py:285-296 | what a finishing turn claims ahead is open, remembered and each once, as the next boundary needs it |
| `BoundaryLaws.GatheredIsOpen` | packages/semora/src/semora/effects.py:227-230 | what a boundary gathers, prefetched and fresh, is open in the queue under its own id, each once |
| `BoundaryWords.WhatTheScreenSees` | packages/semora/src/semora/effects.py:227-234 | the screen is shown every user prompt of the request in order, then what was prefetched, then every open input of the queue that the attempt has not seen, in submission order and as submitted |
| `BoundaryWords.WhatTheModelIsAsked` | packages/semora/src/semora/effects.py:235-267 | whatever a boundary sends: the request's parts that are no user prompts in order, one part for each item the screen let through in its order, then the steers; its metadata names exactly the ids of those items, or is the request's where there are none |
| `BoundaryWords.PlainRequestsAreKept` | packages/semora/src/semora/effects.py:222-271 | without controls and with nothing waiting, the parts sent are the request's, each as often as it occurs |
| `BoundaryWords.PromptsAreScreened` | packages/semora/src/semora/effects.py:257-261 | a user prompt reaches the model only where an item the screen kept or a steer says it |
| `BoundaryWords.SubmittedIsShown` | packages/semora/src/semora/effects.py:227-234 | a submitted input that is open and new to the attempt is shown to the screen as it was submitted |
| `Delivery.InputsAreDeliveredOnce` | packages/semora/src/semora/effects.py:222-296 | for any number of attempts, going on from the active history or from one they are given that repeats no input, with a crash between any two steps: no two places of the active history hold the same queued input, and none is admitted before it was recorded |
| `Delivery.AdmittedWasActive` | packages/semora/src/semora/effects.py:262-271 | in every interleaving an admitted input was in the active history at some earlier moment |
| `Delivery.OpenInputsAreClaimedAgain` | packages/semora/src/semora/runtime.py:791-805 | an open input that the history an attempt goes on from does not hold is among those it claims, so a crash loses none |
| `DeliverySolo.ActionsAreTheBoundary` | packages/semora/src/semora/effects.py:222-271 | with nobody in between, the interleaved actions claim what is due, discard what was dropped, admit what was kept and show exactly that in the transcript |
| `DeliverySolo.ActionsAreTheProgram` | packages/semora/src/semora/effects.py:222-271 | they leave of the queue what the boundary of the program leaves |

## Left out

- NoStartBeforeEveryAnswer: speaks of accepted starts and not of the moment a handler is entered; HandlerMayBeLateExactlyWhenReplaceable has the condition for that moment.
- UnreadRunParksOver: gives one run; UnreadRunIsSafeExactlyWhen has the condition for all of them.
- ForkNeverReruns: is about a copy that ran to its end; the condition for every cut is in CutIsSafeExactlyWhenReached, because for calls a copy did not reach the property is false.
- CrashBeforeTheCopyRunsAgain: gives one fork; the condition for all of them is in ForkedCallsAreSafeExactlyWhenCopied.
- LateWritesMiss: is about worlds in which workers write under leases of their own; unleased writes (token zero) pass every fence, as the source intends.
- Replay: does not compare input sequence numbers or which of two simultaneous errors is reported; the stores number and check in different orders.
- EqualTimesLoseARewind: gives one log; the condition for all logs is in MarkerTakesEffectExactlyWhen.
- `run`: its path is present as an attempt that did not look at the continuation under its lease; queuing a prompt behind a park, and `prompt_id`, which admits before the request is recorded, are not modelled.
- Pydantic AI's graph, tool validation and messages: a nondeterministic driver, and messages as JSON bodies; decoding a body gives the message back unchanged.
- JSON equality: values are compared as data, so Python's `True == 1` and `1 == 1.0` are not reproduced.
- Continuations: the messages, deferred requests, rules version, turn and subject a park carries along are not modelled, nor is the older continuation format; the parked calls and their ids are one list, so the consistency check between them cannot fail.
- What an answer says beyond approving, with other arguments or not, or refusing; what `on_suspend` records is left out, its objection is not.
- SQL isolation: each PostgreSQL method is one atomic transaction; the lease row is read without a lock, and interleavings inside transactions are not modelled. Timestamps, attempt counts and serial gaps visible to other tables are left out.
- Aliasing of Python values: the deep copies the stores make are what values in the model are anyway.
- SHA-256: ids of entries and model steps are collision-free terms and digests are given.
- Tombstones in the round trip: readers handle them, the runtime never writes one, and re-recording a hidden entry would leave it hidden.
- Attempts without a store or without a transcript: there is nothing durable to say about them.
- Usage and branch records, `state`, `pending`, `committed_history`: reads and bookkeeping.
- `ConversationScopedSteps` forwards every call under the filed name; only the naming and its non-interference are modelled.
- `controls.py`, `dispatch.py`, `ids.py`, `contracts.py`: folds, tables and records that would only add easy members.
- FinishRound: speaks of attempts that run to their end; one that parks again before its round is closed is among the actions of `Suspension`.
- Exactly-once effects in the outside world, which the source disclaims: the bound is on handler runs.
