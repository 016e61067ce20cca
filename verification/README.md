# Respondent runtime: a verified model

A Dafny model of the parts of the respondent application where state is shared across
asynchronous steps, and of the policy and codec code whose guarantees span several files.
`dafny verify dfyconfig.toml` checks all of it.

- `EngineExchange`: one mounted controller, its asynchronous reloads and the swap of its live
  engine across React commits. An updater queue, an environment of creations in flight and a
  history make "disposed once, owned once, settled once" a conservation law over every run;
  `RespondentController` performs the steps in place, with a log that the theorems speak of.
- `Payment`: authorize, submit, capture or void, against the contract of the rail and the
  transport; any number of runs, interleaved call by call, each call failing before or after
  its effect.
- `MultiParty`, `MultiPartySigning`, `Json`: slots, signing, persistence and the aggregate.
- `DraftBarrier`: the clear list and the write barrier of Start-current and Clear.
- `FeaturePolicy`, `SafeAddress`, `SafeAddressResponse`: coherence of a composition, resolution
  of features, and safe addresses from the form's item tree to the validated response.
- `JsonPointer`, `Text`: pointers per RFC 6901 sections 3 and 4, authored paths, lookup.
- `Attachments`, `PageBounds`: uploads settling against removals; the page-edge scan.
- `NativeHost`: generation-guarded disposal of one memoised host.

Where the code does not do what its documentation or a natural reading promises, the model
follows the code, and a lemma states exactly when the promise holds:

- A cleanup disposes its engine but keeps it in the closure's variable; a reload that a
  pending invalidation begins afterwards disposes it again, and nothing else disposes an
  engine twice (`EngineExchange.DisposedTwice`, `EngineExchange.EngineOwnership`).
- The saga's documentation (`src/app/respondent-flow.ts:688-692`) promises never a successful
  submission without a charge. A fresh key ends that way if and only if the submission's reply
  was lost, or it was answered and the capture never took effect
  (`Payment.UnpaidSubmissionIff`); any run, from any ledger, is told by
  `Payment.WhatARunLeaves`, and a voided key that is repeated ends that way without any fault
  (`Payment.VoidedThenRepeated`, `Payment.Recovery`). The outcome announced is true of the
  books only if no reply was lost (`Payment.OutcomeTruth`).
- An accepted exchange whose form is not on display never resolves by itself: it is rejected
  at the next commit when something else queued changes the state, and otherwise, under a page
  already committed, stays pending and blocks every later one until a reload, page change,
  disposal, restart or unmount (`EngineExchange.ThreeFates`).
- Slot refs collide when a single-slot role is named like a numbered slot of another
  (`MultiParty.CollidingPolicy`, `MultiParty.SlotsDistinctIff`); such a form completes early
  (`MultiPartySigning.CompletesAfterMinimumIff`).
- The last complaint of the coherence check, with its kinds
  `shared-slot-declaration-conflict` and `available-declaration-paired-with-marked-adapter`,
  can never be raised: earlier checks catch every such case (`FeaturePolicy.CheckPort`).
- A safe item is checked only if all its enclosing items are groups that do not repeat
  (`SafeAddressResponse.GuaranteedIff`): in a repeating group its values sit in an array, which
  its extracted path does not index, and a safe dependent question of a field, which the
  definition schema allows, is never extracted (`SafeAddress.OwnFieldExtractedIff`), so that a
  form without another safe item does not even declare the feature (`SafeAddress.DeclaredIff`).
  Paths are also joined without escaping but decoded with it (`SafeAddressResponse.CheckedIff`
  has the exact condition), and the lookup drops empty segments, which RFC 6901 keeps
  (`JsonPointer.RoundTripIff`).
- A boot or a reload resets the submit status while a submit is in flight, a second submit is
  then accepted, and the end of either clears the in-progress ref. Start-current, or Clear when
  the first ends confirmed, is then accepted while the other runs, which may write a deleted
  draft again (`DraftBarrier.StartCurrentUndone`, `DraftBarrier.ClearUndone`). Both are safe if
  and only if no submit is running at the request (`DraftBarrier.EndingIsSafeIff`), which holds
  as long as nothing resets the status during a submit
  (`DraftBarrier.UndisturbedEndingsAreSafe`).
- The shared progress draft is also a slot's draft when the slot bears the reserved ref and the
  subject spells the scope of the form (`DraftBarrier.ProgressIsShared`); slots whose refs
  collide share one draft (`DraftBarrier.SlotsHaveOwnDraftsIff`).
- Two components that share a composition do not share the generation counter, and a mount
  after the release is given the memoised, disposed host (`NativeHost.TwoComponentsShareTheHost`,
  `NativeHost.RemountAfterReleaseShowsADisposedHost`); `NativeHost.DisposedIff` and
  `NativeHost.ShownHostIsLiveIff` say exactly when a host that is shown is live.

Assumptions about the environment: a commit applies every queued updater in order and the
layout effect follows each commit that made a new state object; disposal does not throw; a
replacement belongs to the controller once the exchange is pending; guards and `adopt` do not
call back into the controller; handlers run from the latest render, and their buttons are
shown where the rendered status shows them. A creation that fails has disposed its engine: in
particular setting the language of an engine in the branch for a draft conflict
(`src/app/RespondentRuntime.tsx:1610`) does not throw. Rail keys derived from (key, suffix) do
not collide and a new authorize key yields a new hold. A batch of uploads starts at an instant
of its own, which makes its row keys unique, and a field write is visible to the next step.
Draft keys contain no NUL and slot refs are not empty. The response hash, the form-scope
digest, the substitute-address directory, the UUID check and `Number(...)` are parameters
about which nothing, or only what a lemma requires, is assumed.

## Model

| member | source | states |
|---|---|---|
| `EngineExchange.EngineOwnership` | src/app/RespondentRuntime.tsx:440-606 | In every interleaving of reloads (late ones included), creation results, exchanges, commits, disposals, restarts and unmounts an engine is disposed at most twice, and twice if and only if a reload came late from the effect instance whose cleanup had disposed it; one that is held (by a creation in flight, the controller or the pending exchange) has one holder and is not disposed |
| `EngineExchange.DisposedTwice` | src/app/RespondentRuntime.tsx:576-606 | Such a run: the cleanup disposes the engine without clearing its variable, and the reload that a pending invalidation begins afterwards disposes it again |
| `EngineExchange.RuntimeOwnership` | src/app/RespondentRuntime.tsx:440-515 | The same for host runtimes: disposed at most once, never while held |
| `EngineExchange.NothingLeaksAfterUnmount` | src/app/RespondentRuntime.tsx:595-605 | After unmount every engine outside a creation in flight has been disposed (with none in flight: every engine), once, or twice exactly after such a late reload; every runtime once; and every accepted exchange has settled once |
| `EngineExchange.SupersededNeverInstalls` | src/app/RespondentRuntime.tsx:488-499 | A creation other than the one begun by the live effect's last reload changes neither the controller nor the display, and what it made is disposed once |
| `EngineExchange.CurrentCreationShows` | src/app/RespondentRuntime.tsx:499-520 | The creation of the live effect's last reload, when it comes back: a ready form and a draft conflict are held and displayed, with or without a runtime; sign-in, submitted and failed hold no engine and show a page without one; the runtime is held exactly for an owned ready form and a submitted one |
| `EngineExchange.LettingGo` | src/app/RespondentRuntime.tsx:440-469 | A reload or a disposal lets go of engine and runtime, each disposed once; a reload shows the loading page and begins the only creation that may install |
| `EngineExchange.DisplayedEngineIsAlive` | src/app/RespondentRuntime.tsx:466-523 | With the updater queue applied, a displayed engine is not disposed, unless Start-current or Clear has just disposed it |
| `EngineExchange.SettlesAtMostOnce` | src/app/RespondentRuntime.tsx:382-406 | An exchange promise is settled at most once, only after it was accepted, and is either pending or settled |
| `EngineExchange.OnlyCommitsResolve` | src/app/RespondentRuntime.tsx:386-396 | The only step that resolves a promise is a commit that shows the replacement while all guards of the commit function pass |
| `EngineExchange.RefusedRequestChangesNothing` | src/app/RespondentRuntime.tsx:472-487 | A request changes nothing exactly when a guard fails, its effect instance or reload is no longer current, the engine it expects is not held or an exchange is pending; else a new engine becomes the pending replacement |
| `EngineExchange.WhatRejects` | src/app/RespondentRuntime.tsx:401-405 | A promise is rejected by a commit, or at the latest by the effect's cleanup, and exactly the pending one |
| `EngineExchange.RejectingCommit` | src/app/RespondentRuntime.tsx:397-405 | A commit rejects exactly by disposing the replacement and only when the replacement is not on display |
| `EngineExchange.ResolvedExchange` | src/app/RespondentRuntime.tsx:390-396 | When a promise resolves, the local and the displayed engine are the replacement, alive, and the expected engine has been disposed once |
| `EngineExchange.RejectedExchange` | src/app/RespondentRuntime.tsx:396-405 | When a commit rejects an exchange in which nothing intervened, the local and the displayed engine are the expected one, alive, and only the replacement was disposed |
| `EngineExchange.UndisturbedUntilIntervention` | src/app/RespondentRuntime.tsx:472-487 | The history flag the two theorems rest on: an exchange stays undisturbed until the first reload, page change, disposal, restart or unmount |
| `EngineExchange.UndisturbedExchangeSettles` | src/app/RespondentRuntime.tsx:386-406 | At most two commits settle an undisturbed exchange: it resolves at the first when the guards pass, and otherwise rolls back and is rejected at the second |
| `EngineExchange.ResolvesIffFormOnDisplay` | src/app/RespondentRuntime.tsx:484-486 | With passing guards and nothing in between, an accepted exchange resolves at the next commit if and only if the expected engine's form was on display when it was requested |
| `EngineExchange.CoveredFormRejects` | src/app/RespondentRuntime.tsx:400-405 | A run in which a page not yet committed covers the form: the exchange is accepted, nothing intervenes, and it is rejected |
| `EngineExchange.CoveredExchange` | src/app/RespondentRuntime.tsx:386-405 | With the form not on display, the next commit rejects the exchange if and only if something else queued makes that commit a new state object |
| `EngineExchange.StaysPending` | src/app/RespondentRuntime.tsx:386-406 | Otherwise it stays pending, and every other exchange is refused, through every run without a reload, page change, disposal, restart or unmount |
| `EngineExchange.ThreeFates` | src/app/RespondentRuntime.tsx:472-487 | The three fates told apart at the request: resolved at the next commit, rejected there, or neither until something intervenes |
| `EngineExchange.CoveredFormStaysPending` | src/app/RespondentRuntime.tsx:484-486 | A run of the third kind: an error page is committed, the exchange is accepted and nothing settles it |
| `EngineExchange.RunKeeps` | src/app/RespondentRuntime.tsx:440-606 | The conservation and consistency invariant (engines with their second disposals, runtimes, promises, variables of cleaned-up effects, sequence numbers, queue, display) holds after every run |
| `EngineExchange.RespondentController.StartReload` | src/app/RespondentRuntime.tsx:463-469 | In place: the reload takes exactly the step of the model and is recorded |
| `EngineExchange.RespondentController.BuildEngine` | src/app/RespondentRuntime.tsx:488 | A creation in flight makes its engine, which from then on it owns |
| `EngineExchange.RespondentController.QueueCopy` | src/app/RespondentRuntime.tsx:571-573 | In place: a copy of the ready state with the same engine is queued |
| `EngineExchange.RespondentController.QueuePage` | src/app/RespondentRuntime.tsx:544-549 | In place: a page without an engine is queued, which counts as an intervention |
| `EngineExchange.RespondentController.FinishCreation` | src/app/RespondentRuntime.tsx:492-520 | In place: a stale creation disposes its result, the current one installs it, a failed one shows the error |
| `EngineExchange.RespondentController.ExchangeEngine` | src/app/RespondentRuntime.tsx:472-487 | In place: refuses, or records the pending exchange and queues the updater; the result says which |
| `EngineExchange.RespondentController.CommitUpdates` | src/app/RespondentRuntime.tsx:386-406 | In place: the queue is applied in order by a loop and the layout effect commits, rolls back or rejects |
| `EngineExchange.RespondentController.ApplyQueue` | src/app/RespondentRuntime.tsx:484-485 | The loop over the queued updaters yields the display they compose to, and whether it is a new object |
| `EngineExchange.RespondentController.RunLayoutEffect` | src/app/RespondentRuntime.tsx:386-406 | The layout effect's whole new state in each of its three outcomes |
| `EngineExchange.RespondentController.DisposeActiveEngine` | src/app/RespondentRuntime.tsx:523 | In place: runtime and engine are disposed and forgotten |
| `EngineExchange.RespondentController.Unmounted` | src/app/RespondentRuntime.tsx:595-605 | In place: cleanup disposes what is held, keeps the engine variable of the closure, and rejects the pending exchange |
| `EngineExchange.RespondentController.Restarted` | src/app/RespondentRuntime.tsx:440-454 | In place: cleanup, which keeps the old closure's engine variable, followed by a new effect instance |
| `EngineExchange.RespondentController.ReloadAfterCleanup` | src/app/RespondentRuntime.tsx:576-587 | In place: a cleaned-up effect reloads, disposing once more what its engine variable holds |
| `Payment.PaymentSafety` | src/app/respondent-flow.ts:792-851 | Over any interleaving of saga runs with repeated or fresh keys, rail keys derived, and any failures before or after an effect: a captured charge implies an accepted submission for that key, no hold is charged twice or both charged and released, each key has at most one hold |
| `Payment.AnyKeysSafety` | src/app/respondent-flow.ts:853-863 | With rail keys of any origin: no hold is charged twice or both charged and released, and a charged hold is one that some run captured after its own submission was accepted |
| `Payment.AcceptancesStand` | src/adapter-conformance/conformance.ts:425-467 | No step of any run takes back an acceptance, changes its confirmation, or changes an authorization's amount |
| `Payment.SagaIsARun` | src/app/respondent-flow.ts:792-851 | An uninterrupted saga is one of those runs, so the safety theorem covers it |
| `Payment.OutcomeTruth` | src/app/respondent-flow.ts:734-757 | For a fresh key the announced outcome says what the books say if and only if no call failed after taking effect |
| `Payment.Recovery` | src/app/respondent-flow.ts:792-851 | Running the same key again without faults from any reachable ledger ends accepted with the first confirmation and charged once, unless the hold had been voided: then accepted, unpaid, `capture-failed` |
| `Payment.WhatARunLeaves` | src/app/respondent-flow.ts:792-851 | From any reachable ledger, any faults: the key ends accepted if and only if it was or this submission took effect, and charged if and only if it was or this run got as far as a capture that took effect on a hold not voided |
| `Payment.UnpaidSubmissionIff` | src/app/respondent-flow.ts:688-692 | A fresh key ends as a successful submission without a charge if and only if the submission took effect but its reply was lost, or the submission was answered and the capture never took effect |
| `Payment.VoidedThenRepeated` | src/app/respondent-flow.ts:792-851 | A reachable ledger with a voided hold, whose repetition without faults ends accepted and unpaid |
| `Payment.CaptureAgain` | src/adapter-conformance/conformance.ts:1463-1582 | The capture leg of a repeated run: a captured or held hold yields the receipt and one charge, a voided one is refused |
| `Payment.ReadMethodToken` | src/app/respondent-flow.ts:865-876 | The token is never empty; in production it is the caller's or the form's; it is missing exactly when neither supplies one outside demo mode |
| `Payment.SubmitWithPayment` | src/app/respondent-flow.ts:792-851 | In place, over a mutable rail and transport: an error, which touches nothing, exactly when payment is disabled, else the amount is missing, else no token can be read, else an override is no UUID; every rail call that takes effect uses its own override or else its own derived key; a fresh submission without faults is accepted and charged the given amount; in general ledger and outcome are those of the saga |
| `Payment.ConfigureSays` | src/app/respondent-flow.ts:795-824 | Which inputs are in order, which complaint comes first otherwise, and that the amount and each key are the input's own |
| `Payment.FreshPaymentCharges` | src/app/respondent-flow.ts:792-851 | On a fresh key without faults the submission is accepted and the hold captured once, hold and receipt both for the amount asked |
| `Payment.SagaUsesItsKeys` | src/app/respondent-flow.ts:821-851 | Under any faults, authorize, capture and void take effect under their own keys and use no other key |
| `Payment.AuthorizeIsIdempotent` | src/adapter-conformance/conformance.ts:1463-1477 | Repeating authorize with a key gives the same authorization and changes nothing, even when the first reply was lost |
| `Payment.AuthorizeMintsAHold` | src/adapter-conformance/conformance.ts:1479-1490 | A new key mints a new held authorization of the given amount and touches no other |
| `Payment.DifferentKeysDifferentHolds` | src/adapter-conformance/conformance.ts:1463-1490 | Different keys give different authorizations |
| `Payment.SubmitConfirmsOnce` | src/adapter-conformance/conformance.ts:437-460 | One confirmation to a key, reply lost or not, and different ones for different keys |
| `Payment.CaptureChargesOnce` | src/adapter-conformance/conformance.ts:1492-1544 | A held authorization is charged once, for its own amount: the same key gives the same receipt, another key is refused |
| `Payment.CaptureRefused` | src/adapter-conformance/conformance.ts:1520-1531 | An unknown authorization and one that is not held are never captured |
| `Payment.VoidReleasesOnce` | src/adapter-conformance/conformance.ts:1546-1582 | A release takes effect once, is idempotent, and rules out every later capture |
| `Payment.VoidAfterCaptureRefused` | src/adapter-conformance/conformance.ts:1558-1569 | A captured authorization cannot be released |
| `MultiParty.ValidateMultiPartyLimits` | src/policy/resolver.ts:312-458 | The validating loop accepts exactly the well-formed policies: a known tier, two or more well-formed roles with distinct ids, a known invitation channel and a well-formed deadline; a duplicate it names is one |
| `MultiParty.SlotsDistinctIff` | src/app/respondent-flow.ts:300-314 | For every accepted policy the slots' refs are distinct if and only if no single-slot role id spells a numbered slot of another role |
| `MultiParty.ColonFreeRolesAreDistinct` | src/app/respondent-flow.ts:300-314 | Colon-free role ids suffice; there are as many slots as the minimum cardinalities add up to, at least two |
| `MultiParty.CollidingPolicy` | src/app/respondent-flow.ts:306 | An accepted policy whose slots do collide |
| `MultiPartySigning.MultiPartySafety` | src/app/respondent-flow.ts:300-410 | In every reachable state the signed refs are distinct and a prefix of the slot order, the subjects are distinct, and the active party is the first unsigned slot, or the last signed one when complete |
| `MultiPartySigning.WhoMaySign` | src/app/respondent-flow.ts:372-402 | In a reachable incomplete state a signing passes the guard exactly for an authenticated identity that has not signed yet |
| `MultiPartySigning.SigningYields` | src/app/respondent-flow.ts:335-370 | The state an accepted signing leads to: one signature and one response appended for the active slot, the next slot active |
| `MultiPartySigning.WhatIsSigned` | src/app/respondent-flow.ts:335-402 | The new signature names the active slot, its role, the signer, the hash of the response, the time, and the id of the response or else the key; the response is stored behind the others |
| `MultiPartySigning.WhyRefused` | src/app/respondent-flow.ts:346-402 | Which error an incomplete state answers: not signed in, identity used before, response not hashable |
| `MultiPartySigning.SigningAnIncompleteState` | src/app/respondent-flow.ts:485-511 | A signing is accepted exactly when the guard and the hash allow it, keeps the invariant and appends one signature |
| `MultiPartySigning.SigningACompleteState` | src/app/respondent-flow.ts:381-383 | Once complete every signing is refused |
| `MultiPartySigning.MultiPartyProgress` | src/app/respondent-flow.ts:300-410 | For an accepted collision-free policy: starting succeeds, each accepted signing raises the number of signatures by one, complete exactly at the number of slots, refused afterwards |
| `MultiPartySigning.CompletesAfterMinimumIff` | src/app/respondent-flow.ts:404-410 | That number is the sum of the minimum cardinalities if and only if the slots do not collide |
| `MultiPartySigning.CompleteIff` | src/app/respondent-flow.ts:404-410 | A reachable state is complete exactly when every distinct slot has signed |
| `MultiPartySigning.PersistenceRoundTrip` | src/app/respondent-flow.ts:426-483 | Restoring the saved draft of any reachable state under the same policy gives back exactly that state |
| `MultiPartySigning.RestoreYieldsSlotsOnly` | src/app/respondent-flow.ts:426-460 | Restoring any draft yields only refs that are slots, and fails only without slots |
| `MultiPartySigning.NoProgressStartsAfresh` | src/app/respondent-flow.ts:430-434 | Without a draft, or with one that holds no progress object, the form starts with its first slot active and nothing signed; every run begins there |
| `MultiPartySigning.RestoreReadsTheDraft` | src/app/respondent-flow.ts:435-460 | With saved progress the saved party is active if it is a slot, else the first slot; signatures and responses are the readable saved ones whose ref is a slot, in saved order |
| `MultiPartySigning.ReadableSignatureIff` | src/app/respondent-flow.ts:609-620 | A saved record reads as a signature exactly when its six members are strings, and then it has these members |
| `MultiPartySigning.RestorePointsChangeNothing` | src/app/respondent-flow.ts:426-511 | Runs with save and restore points anywhere reach the states of the runs without them |
| `MultiPartySigning.SignaturesMatchResponses` | src/app/respondent-flow.ts:485-511 | One stored response per signature, in the same order, with the signed hash |
| `MultiPartySigning.AggregateCorrect` | src/app/respondent-flow.ts:513-568 | Aggregating a reachable state never fails; a non-reserved key is present exactly when a signer supplied it, with the value of the last one in slot order |
| `MultiPartySigning.AggregateListsSigners` | src/app/respondent-flow.ts:528-566 | The reserved entry and its copy in the extensions list the signatures, and every signer in signing order with its own data, response id and full response |
| `DraftBarrier.FingerprintInjective` | src/app/public-terminal-hygiene.ts:122-127 | NUL-free keys share a fingerprint exactly when they agree up to absent against empty parts |
| `DraftBarrier.DedupeDraftKeys` | src/app/public-terminal-hygiene.ts:118-133 | The result holds only listed keys, every fingerprint once, the first key first |
| `DraftBarrier.DraftKeysToClear` | src/app/public-terminal-hygiene.ts:90-102 | The loop builds the deduplicated list of the base, progress and slot keys, the base key first |
| `DraftBarrier.PartyKeysDiffer` | src/app/respondent-flow.ts:412-414 | Keys of two parties are equal exactly when the refs are; a party's key carries its ref and the form, version and subject of the base |
| `DraftBarrier.SlotsHaveOwnDraftsIff` | src/app/respondent-flow.ts:300-414 | For every policy the resolver accepts: no two slots share a draft key if and only if no single-slot role is named like a numbered slot of another |
| `DraftBarrier.ProgressIsShared` | src/app/respondent-flow.ts:416-424 | Two base keys share the progress draft exactly when form and version agree, and it is a slot's key only for the reserved ref under the subject that spells the scope |
| `DraftBarrier.HandlersWriteTheActiveSlice` | src/app/RespondentRuntime.tsx:878-939 | A multi-party form writes answers under the active party's key, a single-party form under its own |
| `DraftBarrier.WhatAStatusAllows` | src/app/RespondentRuntime.tsx:776-917 | At each status, exactly which of language change, submit, Start-current and Clear are accepted |
| `DraftBarrier.VisitStores` | src/app/RespondentRuntime.tsx:878-1030 | An undisturbed visit stores the language save and the submit's draft and ends with the submit's outcome |
| `DraftBarrier.ClearRemoves` | src/app/RespondentRuntime.tsx:1112-1140 | From a confirmed submit, a Clear whose deletions succeed removes exactly its keys from the store and resets the status |
| `DraftBarrier.EveryFormKeyIsCleared` | src/app/public-terminal-hygiene.ts:90-133 | Deduplication drops no distinct NUL-free key of the form |
| `DraftBarrier.EveryWriteIsAFormKey` | src/app/respondent-flow.ts:412-424 | The slice key of an active party and the progress key are among the form's keys |
| `DraftBarrier.NothingIsRecreated` | src/app/RespondentRuntime.tsx:776-799 | When a deletion requested while no submit ran is under way or done, every earlier language save has finished, and while the request stands (no boot, no failure) nothing is written and nothing deleted comes back |
| `DraftBarrier.EndingIsSafeIff` | src/app/RespondentRuntime.tsx:776-789 | A Start-current or Clear that is accepted never has a deleted key written again while it stands, if and only if no submit is running when it is requested |
| `DraftBarrier.UndisturbedEndingsAreSafe` | src/app/RespondentRuntime.tsx:906-921 | As long as no boot, no reload and no end of an overtaken Clear came during a submit, none is running at any accepted Start-current or Clear, and each is safe |
| `DraftBarrier.StartCurrentUndone` | src/app/RespondentRuntime.tsx:451-469 | The failing run: a reload during a submit lets a second one start, the end of the first clears the in-progress ref, Start-current deletes, and the second submit writes the key again |
| `DraftBarrier.ClearUndone` | src/app/RespondentRuntime.tsx:1096-1109 | The same for Clear, when the first submit ends confirmed |
| `DraftBarrier.ClearLeavesNothingWritten` | src/app/RespondentRuntime.tsx:1112-1126 | With the keys that the handlers compute and the list computed for the form: when a Clear accepted while no submit ran has deleted, no key of the form and nothing ever written is left |
| `DraftBarrier.UndisturbedClearLeavesNothing` | src/app/RespondentRuntime.tsx:1112-1126 | So with every accepted Clear, as long as nothing reset the status during a submit |
| `DraftBarrier.DraftWriter.HandleLocaleChange` | src/app/RespondentRuntime.tsx:878-904 | In place: refused on the in-progress ref, a locking status or a requested ending, else the save is chained |
| `DraftBarrier.DraftWriter.FinishSave` | src/app/RespondentRuntime.tsx:896-903 | In place: the head of the save chain is written, or its failure dropped |
| `DraftBarrier.DraftWriter.HandleSubmit` | src/app/RespondentRuntime.tsx:906-922 | In place: refused on the status or under a requested ending, whatever the ref says; else ref and status are set |
| `DraftBarrier.DraftWriter.FinishSubmit` | src/app/RespondentRuntime.tsx:1105-1109 | In place: the last status is set and the ref cleared, whichever submit set them |
| `DraftBarrier.DraftWriter.ReportAuthorizing` | src/app/RespondentRuntime.tsx:1042-1045 | In place: the status follows the submit that reports |
| `DraftBarrier.DraftWriter.FinishReplay` | src/app/RespondentRuntime.tsx:690-708 | In place: a queued submission becomes confirmed or failed |
| `DraftBarrier.DraftWriter.Reloaded` | src/app/RespondentRuntime.tsx:463-469 | In place: a reload resets the status and nothing else |
| `DraftBarrier.DraftWriter.HandleStartCurrent` | src/app/RespondentRuntime.tsx:776-784 | In place: refused while a request stands or on the in-progress ref; otherwise later writes are refused from here on |
| `DraftBarrier.DraftWriter.HandleClearTerminal` | src/app/RespondentRuntime.tsx:1112-1121 | In place, on the confirmation panel: refused only while a request stands |
| `DraftBarrier.DraftWriter.FailDelete` | src/app/RespondentRuntime.tsx:795-798 | In place: a failed deletion lifts the refusal again |
| `DraftBarrier.DraftWriter.FailFinish` | src/app/RespondentRuntime.tsx:1129-1142 | In place: so does a failed list or revoke after the deletion |
| `DraftBarrier.DraftWriter.FinishClear` | src/app/RespondentRuntime.tsx:1129-1137 | In place: the end of Clear resets the status and keeps refusing writes |
| `DraftBarrier.DraftWriter.FinishOrphan` | src/app/RespondentRuntime.tsx:1138-1141 | In place: a handler overtaken by a boot resets the status, or in failing lifts whichever refusal stands now |
| `DraftBarrier.DraftWriter.Booted` | src/app/RespondentRuntime.tsx:449 | In place: a boot lifts the refusal whoever is at work |
| `FeaturePolicy.GroupByPort` | src/policy/composition-coherence.ts:88-94 | The nested loops map each port to exactly the keys that name it, in order |
| `FeaturePolicy.AssertCompositionCoherence` | src/policy/composition-coherence.ts:81-206 | Passes if and only if every key's declaration agrees with every one of its ports, save the stated exemptions; otherwise names a key that does not |
| `FeaturePolicy.CheckPort` | src/policy/composition-coherence.ts:116-204 | One key against one port: no complaint exactly for a wired, exempt or agreeing adapter |
| `FeaturePolicy.Decide` | src/policy/resolver.ts:118-196 | An enabled feature is one the instance can satisfy; a feature required by the form or the organisation is enabled or an error |
| `FeaturePolicy.FeatureEnabledIff` | src/policy/resolver.ts:118-196 | A resolved policy enables exactly the features that work, that neither side forbids, and that the organisation requires or turns on or the form requires or asks for |
| `FeaturePolicy.FeatureDisabledBecause` | src/policy/resolver.ts:118-196 | The cause recorded for every other feature |
| `FeaturePolicy.KeyFailsBecause` | src/policy/resolver.ts:118-196 | Which key makes resolution fail with which error: contradictory demands, or a demand that the instance cannot meet |
| `FeaturePolicy.ResolveFeatures` | src/policy/resolver.ts:65-99 | The feature loop succeeds exactly when every key can be decided and then collects exactly the enabled and the disabled keys |
| `FeaturePolicy.HonestCapabilities` | src/policy/resolver.ts:56-206 | A coherent composition enables, under any policies, only features whose ports are all wired, none marked unavailable, in production none marked at all |
| `FeaturePolicy.SharedPortsAgree` | src/policy/composition-coherence.ts:116-153 | Keys on one port that are not declared unavailable declare the same availability |
| `FeaturePolicy.UnavailableIsMarked` | src/policy/composition-coherence.ts:127-153 | An unavailable declaration, other than the multi-party key's, is backed by a marked adapter or by a live sibling on the port |
| `SafeAddress.ExtractFields` | src/policy/extract-form-policy.ts:349-379 | The recursive walk with its local list yields the fields of the specification |
| `SafeAddress.ExtractionComplete` | src/policy/extract-form-policy.ts:349-379 | Every safe item with nothing but groups around it is extracted, with its path and lists |
| `SafeAddress.ExtractionSound` | src/policy/extract-form-policy.ts:349-379 | Every extracted field is such an item |
| `SafeAddress.PositionsIff` | src/policy/extract-form-policy.ts:374-376 | The walker pushes a field for exactly those safe items whose enclosing items are all groups |
| `SafeAddress.FieldsFollowPositions` | src/policy/extract-form-policy.ts:349-379 | and its fields come from those positions, one by one and in its order |
| `SafeAddress.OwnFieldExtractedIff` | src/policy/extract-form-policy.ts:349-379 | A safe item anywhere in the form, a field's dependent questions included, has its own field extracted if and only if every enclosing item is a group |
| `SafeAddress.DeclaredIff` | src/policy/extract-form-policy.ts:284-313 | Without an extension block the feature is declared if and only if some safe item has nothing but groups around it |
| `SafeAddress.ResolvedFieldAudience` | src/policy/resolver.ts:677-734 | A resolved field keeps its path and class; its audiences are non-empty, authorized, and within its visible-to list |
| `SafeAddress.FieldAudienceIff` | src/policy/resolver.ts:677-734 | With an effective list the readers are that list; without one an audience may read if and only if it is allowed and named by the plaintext and by the visible-to list, when there is one |
| `SafeAddress.FieldResolvesIff` | src/policy/resolver.ts:681-730 | Resolution fails exactly when nobody may read, or an effective audience is not allowed or not in the visible-to list; the error says which |
| `SafeAddress.AuthorizedIff` | src/policy/resolver.ts:786-794 | Who is authorized: audiences the organisation names (issuer verification without a list), narrowed to the form's when it names any |
| `SafeAddress.ResolvesIff` | src/policy/resolver.ts:607-662 | A policy resolves exactly with a field, a jurisdiction, an audience, a tier the deployment offers and fields that resolve; otherwise the first failure in the source's order |
| `SafeAddress.EnabledClassesIff` | src/policy/resolver.ts:610-613 | The enabled classes: the form's, else the organisation's, else exactly those of the fields |
| `SafeAddress.ExtractsIff` | src/policy/extract-form-policy.ts:284-313 | When a form declares or forbids the feature, with which fields, mode and limits |
| `SafeAddress.SafeAddressEndToEnd` | src/policy/resolver.ts:603-675 | If extraction and then resolution succeed, every safe item with nothing but groups around it is in the profile with non-empty audiences within the authorized ones and the organisation's; they are its effective list, or exactly the authorized audiences that its own plaintext and visible-to lists name |
| `SafeAddress.AudienceMonotone` | src/policy/resolver.ts:781-794 | With the form fixed, shrinking the organisation's explicit audience list never turns failure into success and never adds an audience to a field |
| `SafeAddress.ResolutionIdempotent` | src/policy/resolver.ts:603-675 | Resolving a resolved configuration against the same organisation changes nothing |
| `SafeAddressResponse.ValidateAgainstJurisdictions` | src/app/safe-address.ts:62-86 | Accepts exactly when some jurisdiction recognises the candidate; otherwise gives the last one's message |
| `SafeAddressResponse.ValidateField` | src/app/safe-address.ts:42-58 | One field: accepted exactly when its value is absent, null, empty or a recognised string, else refused under its caption |
| `SafeAddressResponse.ValidateResponseData` | src/app/safe-address.ts:33-60 | Passes exactly when every field's value is absent, null, empty or a recognised string; otherwise complains of the first that is not |
| `SafeAddressResponse.PathDecodesIff` | src/policy/extract-form-policy.ts:356 | An extracted path leads the lookup to the item's own keys if and only if no key is empty, has a slash, or contains `~0` or `~1` |
| `SafeAddressResponse.EverySafeItemIsValidated` | src/app/safe-address.ts:33-60 | From form to response: every value of each safe item whose enclosing items are groups that do not repeat, with faithfully spelled keys, has been validated for its class |
| `SafeAddressResponse.AlwaysFoundIff` | src/app/safe-address.ts:92-110 | The lookup of an item's path finds every value of the item, in every response, if and only if no enclosing group repeats and no key is empty, has a slash, or contains `~0` or `~1` |
| `SafeAddressResponse.CheckedIff` | src/policy/extract-form-policy.ts:349-379 | Every value of a safe item, wherever it stands in the form, has a field whose path finds it if and only if moreover every enclosing item is a group |
| `SafeAddressResponse.GuaranteedIff` | src/app/safe-address.ts:33-60 | Under keys the definition schema allows, a safe item has a field of its own whose acceptance guarantees the item's values if and only if all its enclosing items are groups and none repeats |
| `SafeAddressResponse.RepeatedItemIsNeverChecked` | src/app/safe-address.ts:99-108 | For a safe item in a repeating group every response is accepted: the lookup stops at the array |
| `SafeAddressResponse.RowsAreNeverChecked` | src/app/safe-address.ts:99-108 | The smallest such form, a repeating `rows` with a safe `addr` |
| `SafeAddressResponse.DependentQuestionIsNotDeclared` | src/policy/extract-form-policy.ts:374-376 | A form whose only safe item is a dependent question of a field does not declare the feature |
| `SafeAddressResponse.DependentQuestionIsNeverChecked` | src/policy/extract-form-policy.ts:374-376 | Beside another safe item such a question is left out of the fields, and any answer to it is accepted |
| `SafeAddressResponse.MisspelledKeyIsNeverChecked` | src/policy/extract-form-policy.ts:356 | Under any unfaithful top-level key, slashes alone excepted, any value at all is accepted |
| `JsonPointer.UnescapeEscape` | src/app/safe-address.ts:97 | The two replacement passes undo the escaping of every text |
| `JsonPointer.EscapeUnescape` | src/composition/native-package.ts:98 | and escaping undoes them on every reference token of RFC 6901 section 3: a bijection |
| `JsonPointer.EscapeByCharacter` | src/composition/native-package.ts:98 | Escaping goes character by character: `~0` for a tilde, `~1` for a slash |
| `JsonPointer.EncodeBySegment` | src/composition/native-package.ts:96-99 | A pointer is a slash and an escaped segment, repeated |
| `JsonPointer.RoundTripIff` | src/app/safe-address.ts:92-98 | Decoding an encoded pointer gives the same segments if and only if none is empty |
| `JsonPointer.EncodeInjective` | src/composition/native-package.ts:98 | Different non-empty lists of segments have different pointers |
| `JsonPointer.SamePointerIff` | src/composition/native-package.ts:96-99 | Two authored fields have the same pointer exactly when they agree after `[n]` normalisation |
| `JsonPointer.AuthoredPathDecodes` | src/composition/native-package.ts:96-99 | The pointer of an authored path decodes to the keys and indices that the path spells |
| `JsonPointer.ValueAtJsonPointer` | src/app/safe-address.ts:92-110 | The lookup loop returns a value exactly when that value is at the position the segments stand for |
| `JsonPointer.LookupReaches` | src/app/safe-address.ts:99-110 | Looking up the pointer of an existing position reaches the value at that position |
| `Attachments.AttachedIsTheFold` | src/app/attachment-upload-control.tsx:241-297 | In multiple mode, for every interleaving of batches, settlements and removals, the attached list is the initial one and every success in settlement order, less what was removed afterwards |
| `Attachments.AttachedIff` | src/app/attachment-upload-control.tsx:349-354 | A reference is attached exactly when nothing removed it since it entered: none returns, none is lost |
| `Attachments.SingleModeHoldsTheLatest` | src/app/attachment-upload-control.tsx:269-296 | A single-file control holds the last file of the last successful settlement until it is removed |
| `Attachments.RowKeysAreUnique` | src/app/attachment-upload-control.tsx:243-248 | Row keys of different batches or different files never coincide |
| `Attachments.RowsWhileUploading` | src/app/attachment-upload-control.tsx:249-260 | While a batch uploads its rows are there one for one, and no other rows are uploading |
| `Attachments.RowsShowTheirProgress` | src/app/attachment-upload-control.tsx:242-262 | They name the files in order, each with the progress last reported of it |
| `Attachments.RefusedIff` | src/app/attachment-upload-control.tsx:299-321 | A refused file's row is shown exactly until it is dismissed |
| `Attachments.BatchEndsAsItsFailures` | src/app/attachment-upload-control.tsx:271-291 | Once settled, a batch's rows are exactly its failed files, in order, less those dismissed since |
| `Attachments.CollectOutcomes` | src/app/attachment-upload-control.tsx:269-291 | The loop over a batch's outcomes: successes appended to the live references, failures to the rows |
| `Attachments.AttachmentControl.StartUploads` | src/app/attachment-upload-control.tsx:241-249 | In place: the seed rows are appended |
| `Attachments.AttachmentControl.FinishUploads` | src/app/attachment-upload-control.tsx:262-296 | In place: the field is read when the batch settles, not when it started |
| `Attachments.AttachmentControl.ReportProgress` | src/app/attachment-upload-control.tsx:253-261 | In place: only an uploading row with the file's key changes |
| `Attachments.AttachmentControl.AddFailedRows` | src/app/attachment-upload-control.tsx:169-181 | In place: refused files become failed rows |
| `Attachments.AttachmentControl.DismissPending` | src/app/attachment-upload-control.tsx:366-369 | In place: the rows with the key are dropped |
| `Attachments.AttachmentControl.RemoveAt` | src/app/attachment-upload-control.tsx:349-354 | In place: removal reads the live field |
| `PageBounds.DetectPageBounds` | src/app/attachment-upload-control.tsx:1081-1108 | The scan returns the tightest rectangle around the dark pixels; none exactly when they lie in one row or column (or there are none) or the rectangle fills more than 94% of both dimensions |
| `PageBounds.TightIsUnique` | src/app/attachment-upload-control.tsx:1091-1107 | That rectangle is unique |
| `PageBounds.LuminanceIsTheMean` | src/app/attachment-upload-control.tsx:1093-1094 | A pixel's luminance is the integer nearest to a third of its three colour samples |
| `PageBounds.TightLiesInside` | src/app/attachment-upload-control.tsx:1104-1107 | and lies inside the image |
| `NativeHost.OlderNeverDisposes` | src/app/NativePackageRuntime.tsx:124-163 | Outside an identity change only a component's newest mount disposes the host, never an older one while another is mounted |
| `NativeHost.WhyDisposed` | src/app/NativePackageRuntime.tsx:134-162 | Every disposal is an identity change seen by a mounted effect, a failed resume, an effect deposed earlier, or a component with nothing mounted |
| `NativeHost.LoadedHostIsReleased` | src/app/NativePackageRuntime.tsx:146-162 | After the last cleanup a loaded host has been disposed once loading and microtasks have drained |
| `NativeHost.DisposedIff` | src/app/NativePackageRuntime.tsx:124-163 | For any number of components: the host has been disposed if and only if a cleaned-up mount let go of it with no remount of its component in between, an identity changed, or a newest mount failed to resume |
| `NativeHost.ShownHostIsLiveIff` | src/app/NativePackageRuntime.tsx:146-162 | A mounted effect whose resume succeeded shows a live host if and only if none of that has happened, late mounts and several components included |
| `NativeHost.SubscribedIff` | src/app/NativePackageRuntime.tsx:133-160 | A mount follows identities exactly from a load with a session that completed while it was active until its cleanup or first identity change |
| `NativeHost.IdentityChangeIff` | src/app/NativePackageRuntime.tsx:138-143 | While it does, an identity change disposes the host once more and takes the mount's activity; otherwise a change does nothing |
| `NativeHost.SurvivesRemounts` | src/app/NativePackageRuntime.tsx:157-162 | A single component that is remounted at once, as in development mode, never loses its host |
| `NativeHost.RemountAfterReleaseShowsADisposedHost` | src/composition/native-package.ts:126-127 | A component mounted again after the release shows a host already disposed, since the load is memoised |
| `NativeHost.TwoComponentsShareTheHost` | src/app/NativePackageRuntime.tsx:113 | Two components sharing a composition: one's cleanup disposes the host the other shows |
| `NativeHost.MountedEffect.constructor` | src/app/NativePackageRuntime.tsx:124-127 | In place: a mount takes the next generation |
| `NativeHost.MountedEffect.Loaded` | src/app/NativePackageRuntime.tsx:131-146 | In place: the host is remembered, and identities are followed only while active |
| `NativeHost.MountedEffect.CleanedUp` | src/app/NativePackageRuntime.tsx:157-163 | In place: inactive, unsubscribed, the microtask queued |
| `NativeHost.MountedEffect.Resumed` | src/app/NativePackageRuntime.tsx:146-148 | In place: the host is disposed exactly when inactive and current |
| `NativeHost.MountedEffect.Failed` | src/app/NativePackageRuntime.tsx:149-150 | In place: the catch block disposes exactly a loaded host of the current mount |
| `NativeHost.MountedEffect.MicrotaskRuns` | src/app/NativePackageRuntime.tsx:160-162 | In place: the microtask re-reads the counter |
| `NativeHost.MountedEffect.IdentityChanged` | src/app/NativePackageRuntime.tsx:138-143 | In place: an identity change disposes whatever the generation |

## Left out

- Rendering, copy, focus, camera, canvas and object-URL calls: browser effects.
- HTTP, OIDC, the WASM engine, Surface, canonicalisation and hashing libraries, adapters: only the contracts their callers rely on appear.
- Standalone language switching that overwrites state from a stale render closure, and identity invalidations that resolve out of order: not among the steps of the exchange model.
- Payment.PaymentSafety: one hold to a key, and the acceptance of the charged key itself, are claimed for derived rail keys only, since with shared keys two submissions may share a hold; `Payment.AnyKeysSafety` states what holds for any keys.
- Forms with an owned runtime, whose submits bypass `handleSubmit`; each draft write of a submit is one step of the store.
- SafeAddress.DeclaredIff: a form with an extension block may declare the feature, and list fields by hand, without any safe item.
- Payment rail validation of the amount and of UUID shapes by the rail itself, rail labels and settled-transaction ids: single checks without state.
- Signature timestamps and the hash fallback are values handed in; labels and assurance floors of a multi-party policy only pass through, and so do the fixed fields of the aggregate response.
- JSON-level shape checks of configuration (`unknown` narrowed to a type) are made by the types, except where a draft is restored.
- MultiPartySigning.PersistenceRoundTrip: a stored response is taken to carry a data object, which the form engine always gives it.
- FeaturePolicy.ResolveFeatures: input validation and the merging of the other features' limits; `Profile` in `SafeAddress` adds the safe-address part.
- Record-lifecycle merging and renderer hints in the resolver: keys present but undefined and empty hints make their natural statements false.
- SafeAddress.SafeAddressEndToEnd: the feature policies and the safe-address limits of a profile; the other limit objects do not influence them.
- SafeAddressResponse.ValidateResponseData: the directory is a function of its arguments, one that does not throw; inherited members of a JavaScript object are not looked up.
- JsonPointer.AuthoredPathDecodes: keys with a dot or an opening bracket have no authored spelling of their own and are not covered.
- Attachments.AttachmentControl: the attributes `url` and `contentType` copied from a reference when it is written back, the read-only check, file validation and the image-draft queue; refused files appear only as failed rows.
- PageBounds.DetectPageBounds: 94% is compared exactly, where the source multiplies floating-point numbers.
- NativeHost.MountedEffect: what the effect displays (its state and failure stage) and the comparison of identities; an identity change is an event.
- Route parsing, origin matching, configuration precedence, dashboards, signing-configuration checks: finite or single-table facts that would only add easy members.
- Clocks, timers and randomness: values handed in.
