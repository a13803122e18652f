# Verified models of the inspection platform

Dafny models of the stateful parts of the inspection platform, with proofs of what they promise over every input and
every run. `dafny verify dfyconfig.toml` checks everything.

- **Deployment planner** (`Catalog`, `Planner`, `Rollback`, `PlannerAcceptance`, `PlannerTheorems`, `PlannerRuns`).
  Methods follow `create_plan`, `infer_compatibility` and `create_rollback_plan` branch by branch and are proved equal
  to specification functions. `PlannerAcceptance` says from the inputs alone when each of them plans and what the plan
  holds. The other theorems are about pairs of plans and about whole runs of installed plans on one host,
  which accepts a plan only when its own receipt, imported in the same way, has the hash the plan expects.
- **Voice notes on the device** (`AudioDrafts`). What a saved note is, and the object store as a class.
- **Upload protocol** (`UploadProtocol`, `UploadSafety`, `UploadLock`, `UploadDelivery`, `UploadVerdicts`,
  `UploadOutcomes`, `UploadWitnesses`, `Uploader`). One note with its row, the photo store beside it, its server entry, the stored
  object and the runs of any number of tabs. A run advances from one await to the next; anything else may happen in
  between: crashes, lost replies, late requests, other tabs, deletion, expiry by the server. With Web Locks at most
  one run exists; without them there is no limit. `Uploader` is the code as written, from call to return, with
  everybody else's steps interleaved at each await, proved to follow the protocol step by step.
- **Recorder** (`Recorder`, `RecorderRuns`, `RecorderOutcomes`). The closure of `startAudioRecorder` as a class with
  its event handlers, the asynchronous completion cut at its awaits, what every order of browser events keeps, and
  which of them lead to which outcome. `VoiceNotes` joins
  it to the upload protocol.
- **Administrator session** (`Session`). The module variables as a class; every credential carries, for the proofs
  only, the sign-in it descends from.
- **Metrics** (`Metrics`, `FailureWindow`). The 95th percentile interpolated from histogram deltas, and the fifteen
  minute failure window, over exact real numbers.
- **Capture answers** (`CaptureAnswers`). Counting the media of a requirement and merging upload reports.

## Where the code does not keep what it seems to promise

- **A note that the server gave up is taken for received.** `updateAudioDraft` and `uploadAudioDraft` say that bytes are
  removed only after a durable receipt. `reconcileReceipt` takes every status but `UPLOADING` for a receipt
  (`apps/capture/src/pwa/audio-uploads.ts:44`), yet the server can expire or cancel a note whose audio never arrived and
  then answers the next creation with `INVALID_STATE`
  (`services/inspection/internal/features/transcription/create_note_upload/setup.go:137`). The model follows the code:
  `UploadSafety.NoAudioLoss` says exactly what remains true, `UploadSafety.OnlyAReceiptAfterTheEndLoses` names the one
  losing step, `UploadWitnesses.ExpiredNoteLosesAudio` gives a losing run for every fresh note, and
  `UploadWitnesses.NeverLostIffNeverEnded` the exact condition over all runs. For the same reason "RECEIVED" means "past UPLOADING" and no more.
- **Without Web Locks RECEIVED is not final.** A second tab whose request failed writes FAILED over it
  (`apps/capture/src/pwa/audio-uploads.ts:121`): `UploadWitnesses.ReceivedIsOverwrittenWithoutLocks`, and
  `UploadWitnesses.ReceivedIsFinalIffLocks` says that the lock is exactly what decides. Without it a media id that is
  stored with an earlier read of a FAILED note also brings FAILED back: `UploadOutcomes.FailedHasCause`, and with it
  nothing but a run that failed does: `UploadOutcomes.FailedHasCauseUnderLock`.
- **A failed read of the photo store counts as a removed photo** (`apps/capture/src/pwa/audio-uploads.ts:27`), and the
  note becomes unsendable, under the lock for good: `UploadWitnesses.UnreadPhotoCondemnsNote` gives the run for every
  fresh photo note, `UploadVerdicts.MissingIffUnreadOrGone` the exact condition at the lookup, and
  `UploadVerdicts.AlwaysFairIffReadsWork` over all runs: the verdict is always fair exactly when reads cannot fail.
- **A rollback can fail with a missing key instead of a reported refusal** (`deploy/oci/planner.py:299-302`):
  `PlannerTheorems.KeyMissingIff` gives the exact condition on the caller's input, `PlannerTheorems.GatewayKeyMissing`
  and `PlannerTheorems.WorkerKeyMissing` inputs of both kinds, and `PlannerTheorems.DeployThenRollback` says that
  undoing a deploy never meets this.
- **Two checks of the planner can never refuse** (`deploy/oci/planner.py:211-212` and `227-228`):
  `PlannerTheorems.UnreachableRefusals`.
- **A repeated report of a blocked upload raises the version each time**
  (`apps/capture/src/pwa/capture-policy.ts:41-42`): `CaptureAnswers.BlockedReplayRaisesVersion`.
- **The submission check may count one medium twice**, when a ready draft is already listed in its answer
  (`apps/capture/src/pwa/capture-policy.ts:29-31`): `CaptureAnswers.CheckIsRightIffDisjoint` gives the exact condition
  and `CaptureAnswers.OnePhotoCountsTwice` an example for every requirement and medium.

## Model

| member | source | states |
|---|---|---|
| Catalog.FamilyIsAccepted | deploy/oci/planner.py:199-201 | the eight accepted key sets are exactly those without foreign keys that hold every key but possibly the gateway and the two new workers |
| Planner.InferCompatibility | deploy/oci/planner.py:99-119 | whatever order the origins come in: unknown as soon as one origin is unreadable, otherwise required (or review) exactly when some origin differs |
| Planner.TargetListElements | deploy/oci/planner.py:172-190 | the listed targets are exactly the selected components, closed under the Go processes |
| Planner.InCatalogOrder | deploy/oci/planner.py:190 | lists a chosen set in catalog order |
| Planner.OrderedElements | deploy/oci/planner.py:190 | the catalog-ordered list of a set holds exactly that set |
| Planner.DifferingTargets | deploy/oci/planner.py:178 | the components whose active image is not the candidate's, in catalog order |
| Planner.ChangedTargets | deploy/oci/planner.py:177-188 | scope=changed selects the differing components, the worker for a gateway change, the Go processes for a database change, and everything when the impact is unknown or the contract is not proved compatible |
| Planner.SelectTargets | deploy/oci/planner.py:172-190 | the target list of every scope, with one Go process pulling in all of them |
| Planner.Compose | deploy/oci/planner.py:214-226 | the composition, key by key: targeted components and the right infrastructure keys from the candidate, everything else kept |
| Planner.PlanComposition | deploy/oci/planner.py:191-271 | the checks after target selection refuse in order, or the plan has the specified targets, images, expected state, sources, profiles and operations |
| Planner.CreatePlan | deploy/oci/planner.py:122-271 | create_plan returns exactly the specified refusal or plan for every input |
| Rollback.CoordinateGo | deploy/oci/planner.py:284-289 | one Go target pulls in all Go processes but a worker that neither receipt knows |
| Rollback.Restore | deploy/oci/planner.py:298-302 | the targets take their earlier images and nothing else changes, or the first missing key is found |
| Rollback.MergeSources | deploy/oci/planner.py:303-308 | targets take their earlier origin, the others keep theirs, and sources are given only when both are complete and every merged one is a commit |
| Rollback.CreateRollbackPlan | deploy/oci/planner.py:274-327 | create_rollback_plan returns exactly the specified refusal, missing key or plan for every input |
| PlannerAcceptance.PlansIff | deploy/oci/planner.py:122-252 | for every input, create_plan plans exactly when the candidate is whole, the request well formed, something is targeted, the receipt is pinned and accepted (and complete unless everything is targeted), the five infrastructure images are pinned, a database change takes along every Go process, an unknown database impact or an unproved contract takes everything, the operation is a deploy or a recovery of everything that names its blocked deployment and a full runtime hash, and a runtime hash is present |
| PlannerAcceptance.PlanContents | deploy/oci/planner.py:253-271 | what every accepted plan holds: each target once, the images key by key, the imported state it replaces, the sources of all components, profiles for exactly the targeted sites, migration and seed for Go targets or a recovery, and the request's own operation, runtime and impact |
| PlannerAcceptance.OffersMean | deploy/oci/planner.py:214-226 | the images of a plan are the candidate's own entries for each component and each infrastructure key |
| PlannerAcceptance.DatabaseChangeIsMigrated | deploy/oci/planner.py:230-264 | every plan under a database impact other than none moves all Go processes and migrates |
| PlannerAcceptance.RefusalsAreTrue | deploy/oci/planner.py:122-252 | whatever reason create_plan gives for a refusal is true of the request |
| PlannerAcceptance.ImportMeans | deploy/oci/planner.py:195-198 | the monolithic receipt becomes an accepted one in which its three split-off processes run the API image; any other stays as it is |
| PlannerAcceptance.InferredMeans | deploy/oci/planner.py:99-119 | unknown when sources are missing, incomplete, no commits, or cannot be compared; otherwise a change counts exactly when some origin shows it |
| PlannerAcceptance.SelectionMeans | deploy/oci/planner.py:172-190 | a selection targets what is named, and every Go process as soon as one is named; scope=all targets everything |
| PlannerAcceptance.ChangesMean | deploy/oci/planner.py:174-190 | scope=changed targets everything without an active receipt or with an unclear impact; otherwise what differs, the worker for another gateway, and the Go processes for a database change or as soon as one of them moves |
| PlannerAcceptance.RollsBackPlanIff | deploy/oci/planner.py:278-302 | for every input, create_rollback_plan plans exactly when both receipts are accepted, the earlier one is pinned, the names are known and distinct, no running new worker would be lost, both runtime hashes are present, nonempty and equal, the executor is a commit, one receipt has the gateway, and the earlier one has every target |
| PlannerAcceptance.RollbackContents | deploy/oci/planner.py:298-324 | what every rollback plan holds: its targets, its images key by key from the earlier or the active receipt, the states it replaces and restores, which new workers remain, and the common runtime hash |
| PlannerAcceptance.RollbackSourcesMean | deploy/oci/planner.py:303-308 | sources are given exactly when both receipts record one for each component and all merged ones are commits, and then a target has its earlier one, any other its own |
| PlannerAcceptance.RollbackRefusalsAreTrue | deploy/oci/planner.py:278-297 | whatever reason create_rollback_plan gives for a refusal is true of the request |
| PlannerTheorems.ImportKeeps | deploy/oci/planner.py:195-198 | importing the monolithic receipt keeps every image it had |
| PlannerTheorems.ImportAccepted | deploy/oci/planner.py:195-202 | a receipt of the accepted family is never mistaken for the monolithic one |
| PlannerTheorems.ReceiptChecksPassIff | deploy/oci/planner.py:191-219 | the receipt and infrastructure checks pass exactly for some targets, on a pinned receipt that is empty or accepted, complete unless everything is targeted, with complete pinned infrastructure |
| PlannerTheorems.ComposedKeys | deploy/oci/planner.py:202-226 | after the receipt checks the composition has exactly the sixteen keys, whatever was active |
| PlannerTheorems.ComposedPinned | deploy/oci/planner.py:144-145 | from a pinned receipt and a valid candidate every composed image is pinned by digest |
| PlannerTheorems.UnreachableRefusals | deploy/oci/planner.py:211-228 | the gateway check and the composition check can never be the ones that refuse |
| PlannerTheorems.DeployClosure | deploy/oci/planner.py:195-228 | every accepted deploy desires exactly the full composition, all pinned |
| PlannerTheorems.MinimalPlanEqualsFullPlan | deploy/oci/planner.py:172-226 | whenever scope=changed is accepted, scope=all is accepted on the same inputs and desires identical images, the gateway included |
| PlannerTheorems.WideScopesAreCoordinated | deploy/oci/planner.py:230-240 | scope=changed and scope=all never fail a database or contract gate |
| PlannerTheorems.SelectionIsUpwardClosed | deploy/oci/planner.py:189-240 | adding known components to an accepted selection keeps it accepted and only adds targets |
| PlannerTheorems.WiderSelectionImages | deploy/oci/planner.py:214-226 | the wider plan gives each of its targets the candidate's image and leaves every other component as the narrower plan had it |
| PlannerTheorems.NoChangesIffUpToDate | deploy/oci/planner.py:174-192 | with compatible sources scope=changed has nothing to do exactly when every component and the gateway already are the candidate's |
| PlannerTheorems.ReplanningIsRefused | deploy/oci/planner.py:172-192 | planning scope=changed again for the candidate a changed or full plan installed is refused as having no changes |
| PlannerTheorems.RollbackAcceptance | deploy/oci/planner.py:278-302 | a rollback plans exactly when no check refuses, one receipt knows the gateway, and the earlier one knows every target |
| PlannerTheorems.KeyMissingIff | deploy/oci/planner.py:299-302 | a rollback that no check refuses fails on a missing key exactly when neither receipt knows the gateway or the caller names a new worker that neither receipt knows |
| PlannerTheorems.GatewayKeyMissing | deploy/oci/planner.py:299-300 | for every pinned receipt without the gateway, rolling one component back to that same receipt fails on the gateway key |
| PlannerTheorems.WorkerKeyMissing | deploy/oci/planner.py:301-302 | for every pinned receipt that lacks just one new worker, rolling that worker back to that same receipt fails on its key |
| PlannerTheorems.RollbackKeepsPairing | deploy/oci/planner.py:303-308 | when the active and the earlier receipt record for each component image the source it was built from, so does every rollback plan that gives sources, and it gives one for every component |
| PlannerTheorems.DeployThenRollback | deploy/oci/planner.py:214-226 | undoing an accepted deploy is planned exactly when the old receipt was accepted and had both new workers, and it restores that receipt except for the gateway image; no lookup fails |
| PlannerRuns.PlansAreInstalled | deploy/oci/planner.py:253-271 | what a run installs is what the two planners put into desiredImages, against the state they expect |
| PlannerRuns.DeployAgrees | deploy/oci/planner.py:189-190 | a deploy leaves all Go images of one origin: the candidate when it touches Go, else the previous origin |
| PlannerRuns.RollbackAgrees | deploy/oci/planner.py:284-293 | a rollback that touches Go takes every Go image left in place from the earlier receipt, otherwise none |
| PlannerRuns.InstallCoherent | deploy/oci/host/apply-plan.sh:138-157 | one guarded installation takes coherent receipts to a coherent receipt |
| PlannerRuns.GoCoherence | deploy/oci/planner.py:189-198 | over every run of accepted deploys and rollbacks to earlier receipts, from any initial receipt, all Go images of every receipt come from one single candidate or the initial receipt |
| PlannerRuns.InstallKeepsKeys | deploy/oci/planner.py:195-228 | every installation gives an accepted key set and loses no key of the imported receipt |
| PlannerRuns.InstallKeeps | deploy/oci/host/apply-plan.sh:466-478 | an installation over a pinned receipt gives a pinned one of an accepted key set that loses no key |
| PlannerRuns.ReceiptFamily | deploy/oci/planner.py:20-29 | over every run with a move, whatever it began with, all receipts are pinned, every installed one is accepted, and no optional key ever disappears |
| AudioDrafts.AudioStore.Save | apps/capture/src/pwa/audio-drafts.ts:76-87 | stores the draft with its bytes exactly when it is valid, has all its bytes and the transaction commits; otherwise nothing changes |
| AudioDrafts.AudioStore.Load | apps/capture/src/pwa/audio-drafts.ts:89-101 | gives a note only to its own responsibility, rebuilt from its row |
| AudioDrafts.AudioStore.Update | apps/capture/src/pwa/audio-drafts.ts:137-154 | merges into an existing row of the same responsibility, keeps its bytes, drops them with a receipt, never creates a row |
| AudioDrafts.AudioStore.Delete | apps/capture/src/pwa/audio-drafts.ts:163-177 | removes one note within its responsibility and nothing else |
| AudioDrafts.AudioStore.RemoveForResponsibility | apps/capture/src/pwa/audio-drafts.ts:179-190 | removes exactly the notes of one responsibility |
| AudioDrafts.SaveThenLoad | apps/capture/src/pwa/audio-drafts.ts:76-135 | a saved note loads back unchanged exactly when it was not already marked received |
| AudioDrafts.SendableIsIntact | apps/capture/src/pwa/audio-drafts.ts:125-135 | a loaded note that may still be sent carries exactly the stored bytes, in full length |
| AudioDrafts.UpdateIsNarrow | apps/capture/src/pwa/audio-drafts.ts:138-154 | an update touches one row, brings no row or bytes back, drops bytes only with a receipt, and never removes a note id |
| AudioDrafts.ClearIsExact | apps/capture/src/pwa/audio-drafts.ts:180-190 | after clearing, a note remains exactly when another responsibility owns it, and then unchanged |
| AudioDrafts.SaveableMeans | apps/capture/src/pwa/audio-drafts.ts:67-78 | what a note needs to be stored, with all its limits |
| AudioDrafts.LoadMeans | apps/capture/src/pwa/audio-drafts.ts:89-135 | a loaded note is its row: a receipt hides the bytes, an open note without all its bytes turns unsendable, an invalid or foreign row gives nothing |
| AudioDrafts.UpdateMeans | apps/capture/src/pwa/audio-drafts.ts:137-154 | an update writes its own state and target, keeps the stored bytes unless it is a receipt, and keeps the stored note id unless it brings one |
| AudioDrafts.DeleteIsExact | apps/capture/src/pwa/audio-drafts.ts:163-177 | after deleting, exactly the named note of this responsibility is gone and every other is unchanged |
| UploadSafety.StepInv | apps/capture/src/pwa/audio-uploads.ts:51-124 | every step of any tab, of the server or of the participant keeps the safety invariant: only original bytes travel, a row is whole or past its upload, note ids are the server's |
| UploadSafety.RunInv | apps/capture/src/pwa/audio-uploads.ts:51-124 | so does every run |
| UploadSafety.NoAudioLoss | apps/capture/src/pwa/audio-uploads.ts:39-124 | in every reachable state, with crashes, lost replies and any number of tabs with or without locks, the original bytes are on the device or the server durably holds exactly them, or the note was discarded, or the server ended it and its row has lost the bytes |
| UploadSafety.OnlyAReceiptAfterTheEndLoses | apps/capture/src/pwa/audio-uploads.ts:39-49 | the only step that loses audio of an undiscarded note is a receipt write that commits while the server has ended the note |
| UploadSafety.NoLossWithoutExpiry | apps/capture/src/pwa/audio-uploads.ts:39-124 | without an expiry or cancellation before the receipt, no undiscarded note loses its audio |
| UploadSafety.ReceiptIsSafeIffDurable | apps/capture/src/pwa/audio-uploads.ts:39-49 | the write that drops the bytes is safe exactly when the status behind it is that of a received note |
| UploadSafety.BytesOnlyLeaveWithReceipt | apps/capture/src/pwa/audio-uploads.ts:105-111 | no step revives a discarded row or dropped bytes, and bytes leave only with a RECEIVED write |
| UploadLock.StepLock | apps/capture/src/pwa/audio-uploads.ts:12-18 | every step under the lock keeps one run, working on the row's own target, with nothing sent before the target is complete |
| UploadLock.RunLock | apps/capture/src/pwa/audio-uploads.ts:12-18 | so does every run |
| UploadLock.OneBody | apps/capture/src/pwa/audio-uploads.ts:57-86 | under the lock every create request ever sent for an undiscarded note, over retries and crashes, has the same body, for a photo note with the media id its row already holds |
| UploadLock.StepIsFinal | apps/capture/src/pwa/audio-uploads.ts:51-55 | under the lock a step leaves RECEIVED and UNSENDABLE rows, and a stored photo id, as they are |
| UploadLock.FinalStatesStay | apps/capture/src/pwa/audio-uploads.ts:51-55 | so does every run: RECEIVED and UNSENDABLE are final, and a note never moves to another photo |
| UploadLock.ReceivedIsPast | apps/capture/src/pwa/audio-uploads.ts:107-111 | with or without locks RECEIVED means that the server is past UPLOADING, and a stored note id is the server's |
| UploadLock.NoteIdIsWrittenOnce | apps/capture/src/pwa/audio-uploads.ts:93-94 | a stored note id is never replaced or removed |
| UploadDelivery.DeliveryIsPossible | apps/capture/src/pwa/audio-uploads.ts:51-124 | under the lock, from every state with an open row that the server has not ended, some continuation delivers the note: RECEIVED on the device and durable, byte for byte, on the server |
| UploadDelivery.EveryNoteCanSettle | apps/capture/src/pwa/audio-uploads.ts:51-133 | so over every run under the lock a note is discarded, final, ended by the server, or can still be delivered |
| UploadWitnesses.ExpiredNoteLosesAudio | apps/capture/src/pwa/audio-uploads.ts:40-49 | for every fresh note, with or without locks, a run that loses its audio although nobody discarded it |
| UploadWitnesses.NeverLostIffNeverEnded | apps/capture/src/pwa/audio-uploads.ts:39-124 | over all runs of any fresh note no undiscarded audio is lost exactly when the server never ends a note it has not received |
| UploadWitnesses.UnreadPhotoCondemnsNote | apps/capture/src/pwa/audio-uploads.ts:27-29 | for every fresh photo note without a media id, a run in which its photo is stored and ready and one failed read makes the note UNSENDABLE before the server hears of it, for good under the lock |
| UploadWitnesses.ReceivedIsOverwrittenWithoutLocks | apps/capture/src/pwa/audio-uploads.ts:112-122 | for every fresh note, a run without locks in which FAILED is written over RECEIVED |
| UploadWitnesses.ReceivedIsFinalIffLocks | apps/capture/src/pwa/audio-uploads.ts:12-18 | over all runs of any fresh note RECEIVED is final exactly when the browser has Web Locks |
| UploadVerdicts.MissingIffUnreadOrGone | apps/capture/src/pwa/audio-uploads.ts:27-29 | a photo is reported missing exactly when the store could not be read or holds no photo with that id |
| UploadVerdicts.FoundIsOwnReadyPhoto | apps/capture/src/pwa/audio-uploads.ts:28-31 | a media id found is that of a ready photo with the note's own photo id, never of another photo |
| UploadVerdicts.UnsendableHasCause | apps/capture/src/pwa/audio-uploads.ts:34-123 | the step that makes a row UNSENDABLE is the marking write of a run that, since it began, failed to read the photo store, or saw that its photo was gone, or had its creation or completion refused for good without a reconciled receipt |
| UploadVerdicts.UnsendableOnlyWhenGoneOrRefused | apps/capture/src/pwa/audio-uploads.ts:34-123 | while no read of the photo store fails, the committed write that made a note UNSENDABLE, which it has been ever since, belongs to a run that saw its photo really gone or was refused for good by the server |
| UploadVerdicts.AlwaysFairIffReadsWork | apps/capture/src/pwa/audio-uploads.ts:27 | for every fresh photo note without a media id, that is so in all runs exactly when reads of the photo store cannot fail |
| UploadOutcomes.TerminalRefusalMakesUnsendable | apps/capture/src/pwa/audio-uploads.ts:112-119 | in every reachable state, a run whose creation or completion is refused for good next reads the row and then marks it, and when both work an existing row is UNSENDABLE, whatever others do in between |
| UploadOutcomes.FailureForNowMakesFailed | apps/capture/src/pwa/audio-uploads.ts:112-122 | so a run whose creation, PUT, completion, note id or receipt failed for the moment leaves an existing row FAILED |
| UploadOutcomes.StateConflictIsReconciled | apps/capture/src/pwa/audio-uploads.ts:39-49 | after a state conflict a note without an id is marked UNSENDABLE; one with an id is asked for, a receipt is written exactly when the server reports it past the upload, and otherwise, or when that write aborts, it is marked UNSENDABLE |
| UploadOutcomes.FailedHasCause | apps/capture/src/pwa/audio-uploads.ts:112-122 | over all runs, the step that makes a row FAILED is a committed write, of the marking of a run whose last failure was one for the moment, or of a media id with a note that was FAILED when it was read |
| UploadOutcomes.FailedHasCauseUnderLock | apps/capture/src/pwa/audio-uploads.ts:112-122 | with Web Locks only the former |
| UploadOutcomes.FirstRead | apps/capture/src/pwa/audio-uploads.ts:51-58 | the first read ends the run for a final note or a failed read, asks for the photo of a photo note without a media id, and otherwise sends the creation |
| UploadOutcomes.PhotoAnswer | apps/capture/src/pwa/audio-uploads.ts:57-62 | a photo that is gone marks the note, one that is not ready ends the run with the row untouched, a ready one has its media id written down |
| UploadOutcomes.TargetWritten | apps/capture/src/pwa/audio-uploads.ts:63-66 | the creation of a photo note is sent exactly after its media id was stored |
| UploadOutcomes.CreationAnswered | apps/capture/src/pwa/audio-uploads.ts:70-93 | a creation succeeds exactly when the server has the note, and then its id is stored next |
| UploadOutcomes.NoteIdWritten | apps/capture/src/pwa/audio-uploads.ts:94-98 | a stored note id is that of the server, the row is pending with it, and only then the original bytes are sent |
| UploadOutcomes.BytesAnswered | apps/capture/src/pwa/audio-uploads.ts:98-111 | stored bytes are completed; a completion that succeeds has its receipt written, and the run ends when that commits |
| Uploader.Device.ResolvePhoto | apps/capture/src/pwa/audio-uploads.ts:23-32 | the loop over the photo store finds the note's own photo: ready with its media id, not ready, or missing, with a failed read as an empty store |
| Uploader.Device.PerformUpload | apps/capture/src/pwa/audio-uploads.ts:51-124 | one call, whatever happens around its awaits: it begins a run, takes at each await exactly the protocol step for the answer it gets, ends its run without a crash, and returns or throws what that last step settles |
| Uploader.Device.UploadAudioDraft | apps/capture/src/pwa/audio-uploads.ts:127-133 | a call joins its own tab's run and changes nothing, or only reads the note when another tab holds the lock, or runs to its end as above |
| Uploader.ReturnedReceiptIsPast | apps/capture/src/pwa/audio-uploads.ts:105-111 | a call returns a received note only when the server is past the upload |
| Uploader.ResultTellsTheRow | apps/capture/src/pwa/audio-uploads.ts:51-124 | what a call returns or throws agrees with the row its last step leaves: a returned receipt is a RECEIVED row, a note returned without one waits for its photo with the row untouched, and a call that threw after working storage left no RECEIVED row |
| Uploader.CallsNeverLoseAudio | apps/capture/src/pwa/audio-uploads.ts:126-133 | whatever calls were made on a device in any number of tabs, the audio is preserved or discarded, or the server ended the note and its row has lost the bytes |
| Recorder.AudioRecorder.Finalize | apps/capture/src/pwa/audio-recorder.ts:65-71 | only the first stop cause counts; it reports finalizing and stops or completes the recording |
| Recorder.AudioRecorder.Halt | apps/capture/src/pwa/audio-recorder.ts:95-99 | an inactive recorder completes at once, a live one at its stop event, one that cannot be stopped fails |
| Recorder.AudioRecorder.Complete | apps/capture/src/pwa/audio-recorder.ts:72-85 | cleans up, then fails, discards a note under half a second, refuses a bad size, or builds the draft from the joined chunks |
| Recorder.AudioRecorder.OnDataAvailable | apps/capture/src/pwa/audio-recorder.ts:103-108 | an empty chunk is ignored, one beyond 5 MB finalizes, any other is appended and counted |
| Recorder.AudioRecorder.OnTimer | apps/capture/src/pwa/audio-recorder.ts:118-122 | reports the capped time and finalizes at sixty seconds |
| Recorder.AudioRecorder.OnError | apps/capture/src/pwa/audio-recorder.ts:109 | records the failure and finalizes |
| Recorder.AudioRecorder.OnDigest | apps/capture/src/pwa/audio-recorder.ts:85-86 | seals the draft and saves it exactly when the store accepts it, otherwise fails |
| Recorder.AudioRecorder.OnStored | apps/capture/src/pwa/audio-recorder.ts:86-92 | a commit reports the saved note and settles the promise with it, anything else reports and settles a failure |
| RecorderRuns.RecorderSafety | apps/capture/src/pwa/audio-recorder.ts:58-108 | over any order of events: at most one note is saved, it is everybody's outcome, is pending, may enter the store and loads back unchanged, lasts half a second to a minute, holds an initial part of the accepted sound; accepted bytes equal the chunk sum and stay within 5 MB; updates come in order |
| RecorderRuns.StepInv | apps/capture/src/pwa/audio-recorder.ts:58-124 | every event keeps the recorder's invariant |
| RecorderRuns.OneOutcome | apps/capture/src/pwa/audio-recorder.ts:65-70 | a settled outcome, the saved notes and the first stop cause never change again, and after cleanup no recording update is sent |
| RecorderRuns.TooLargeMeansEmpty | apps/capture/src/pwa/audio-recorder.ts:83 | the size check can only refuse an empty recording; its oversize half never acts |
| RecorderRuns.FinalizationCanSettle | apps/capture/src/pwa/audio-recorder.ts:95-100 | from every reachable finalized state there are browser answers that settle the promise |
| RecorderRuns.EveryDraftIsValid | apps/capture/src/pwa/audio-recorder.ts:84-86 | with a valid identity and anchored targets the store never refuses a built draft |
| RecorderOutcomes.EventAdvances | apps/capture/src/pwa/audio-recorder.ts:65-122 | every event in every reachable state before the completion: the first request counts, an error or a stop that throws is remembered, chunks that fit are kept, and the completion begins with the right event and concludes by interruption, length, sound and target |
| RecorderOutcomes.OutcomeHasItsCause | apps/capture/src/pwa/audio-recorder.ts:72-93 | over every order of events the promise settles with an outcome exactly when some event calls for it: Interrupted after an error or a throwing stop, Nothing under half a second, TooLarge without sound, the note or OutOfSpace by the answer of the store, Other when the target, the digest or the store failed |
| RecorderOutcomes.InterruptedIsNeverSaved | apps/capture/src/pwa/audio-recorder.ts:74-75 | an error or a throwing stop up to the event that begins the completion means that nothing is ever saved and any outcome is Interrupted, and no other recording ends so |
| RecorderOutcomes.SettlingIsAnnounced | apps/capture/src/pwa/audio-recorder.ts:79-92 | whenever the promise settles, the last update tells with what, for a saved note its length, first cause and limit |
| RecorderOutcomes.TickReports | apps/capture/src/pwa/audio-recorder.ts:118-121 | the timer reports the time, at most sixty seconds, and whether they are over |
| RecorderOutcomes.DigestSeals | apps/capture/src/pwa/audio-recorder.ts:85-86 | the digest is the only thing that a draft gains before it is stored |
| VoiceNotes.SavedNotesAreFresh | apps/capture/src/pwa/audio-recorder.ts:85-86 | every note saved by a recording whose identity names no note yet meets all that the upload theorems ask of a new note |
| VoiceNotes.RecordedAudioIsNeverLost | apps/capture/src/pwa/audio-recorder.ts:85-88 | from recording to receipt, over every order of browser events and every upload run, a saved recording is on the device or durably on the server byte for byte, or was discarded, or the server ended it and the row lost its bytes for that |
| Session.AdminSession.SetSession | apps/admin/src/auth/session.ts:13 | a sign-in replaces every credential, forgets the shared request and starts a new epoch |
| Session.AdminSession.ClearSession | apps/admin/src/auth/session.ts:48 | a sign-out clears every credential, forgets the shared request and starts a new epoch |
| Session.AdminSession.AccessTokenForRequest | apps/admin/src/auth/session.ts:18-27 | a token at once, the shared refresh, or a new refresh of the token held, in every case as specified |
| Session.AdminSession.Reply | apps/admin/src/auth/session.ts:28-41 | a reply renews, ends or leaves the session as specified, by status, content and epoch |
| Session.AdminSession.Finish | apps/admin/src/auth/session.ts:44 | a settled request is forgotten only when it is still the shared one |
| Session.StepInv | apps/admin/src/auth/session.ts:13-48 | every interleaved step keeps the session's invariant |
| Session.EpochSafety | apps/admin/src/auth/session.ts:18-48 | over all interleavings tokens and expiry belong to the current sign-in, and at most one refresh of it is outstanding, the shared one |
| Session.LateReplyIsIgnored | apps/admin/src/auth/session.ts:30-44 | a refresh of an older epoch changes nothing, and its end never clears a newer shared request |
| Session.StaleCallersShare | apps/admin/src/auth/session.ts:20-24 | a caller waits for the shared refresh exactly when it reports the token the session holds |
| Session.TokenChanges | apps/admin/src/auth/session.ts:36-41 | the access token changes only by sign-in, sign-out, or the success of a refresh of the token held |
| Session.StartsForItsToken | apps/admin/src/auth/session.ts:21-27 | the refresh that a caller starts by reporting a stale token is a refresh of that token |
| Session.EachTokenIsRenewedOnce | apps/admin/src/auth/session.ts:21-24 | if renewed tokens are fresh, the callers that report one stale token cause at most one successful refresh over the whole run, and once it is renewed no caller that reports it starts another |
| Session.OutcomeMeans | apps/admin/src/auth/session.ts:28-41 | a refresh settles with a token exactly when it renewed the current sign-in, and then with the one the session holds afterwards; a late renewal gives none; 400 and 401, and only they, expire the session; anything else may be tried again |
| Session.ReplyMeans | apps/admin/src/auth/session.ts:28-41 | a late reply changes no credential; a rejection of the current refresh ends the session; a renewal brings the new access token and expiry, and a new refresh or id token only where one came |
| Session.CallersGetTheSessionsToken | apps/admin/src/auth/session.ts:34-41 | in every reachable state a caller that gets a token gets the one the session then holds, of the present sign-in |
| Session.AnswerMeans | apps/admin/src/auth/session.ts:18-27 | when a caller gets no token, the one held, the shared refresh, or a new one |
| Metrics.Accumulate | deploy/oci/host/publish-metrics.py:117-127 | exactly the sampled bounds, each with the sum of its samples |
| Metrics.SamplesAddUp | deploy/oci/host/publish-metrics.py:117-127 | every sample adds its count to its own bound, however the scrape is split |
| Metrics.DeltasMean | deploy/oci/host/publish-metrics.py:128-137 | a delta is what came on top since the saved counts, unless some bucket fell below its saved count: then every count is new |
| Metrics.NoClampWithoutReset | deploy/oci/host/publish-metrics.py:133-137 | without a reset the clamp at zero never acts, also for buckets that appear or disappear |
| Metrics.DeltasTelescope | deploy/oci/host/publish-metrics.py:128-139 | over any run the deltas of a bucket add up to the counts reached in each life of the process |
| Metrics.DeltasSumToLastCount | deploy/oci/host/publish-metrics.py:128-139 | without a reset they add up to the last count |
| Metrics.Quantile | deploy/oci/host/publish-metrics.py:143-158 | the loop reports the value of the first position whose count reaches the rank, or the last bound |
| Metrics.Sorted | deploy/oci/host/publish-metrics.py:146 | lists the keys of the deltas in ascending order |
| Metrics.ListedOnce | deploy/oci/host/publish-metrics.py:146 | there is only one such list, so the percentile depends on the deltas alone |
| Metrics.RequestP95 | deploy/oci/host/publish-metrics.py:141-158 | nothing exactly when no request was counted, otherwise the quantile at 95 in 100 |
| Metrics.RequestHistogram.Scrape | deploy/oci/host/publish-metrics.py:117-158 | one scrape saves the accumulated counts and reports the percentile of what changed since the saved ones |
| Metrics.Interpolation | deploy/oci/host/publish-metrics.py:155-156 | the interpolated value lies in the bucket, and the line through the bucket has the rank as its height there |
| Metrics.QuantileIsInBucket | deploy/oci/host/publish-metrics.py:146-158 | with positive bounds and a positive rank within the total the loop always returns inside: a finite result lies in (previous bound, bound] of the first bucket that reaches the rank, which is never empty, and reads back to the rank |
| Metrics.QuantileIsMonotone | deploy/oci/host/publish-metrics.py:142-158 | a higher rank never gives a lower value |
| Metrics.P95IsMeasurable | deploy/oci/host/publish-metrics.py:141-142 | those hypotheses hold for the 95th percentile whenever a request was counted |
| Metrics.P95MeansNinetyFiveInHundred | deploy/oci/host/publish-metrics.py:141-158 | whenever a request was counted a value is reported, and it reads back, on the first bucket that reaches it, to 95 of 100 requests |
| FailureWindow.ProviderFailureWindow.Scrape | deploy/oci/host/publish-metrics.py:175-187 | drops old stamps, adds one per new whole failure up to one hundred, saves the counter, reports the number of stamps |
| FailureWindow.StoredEvents | deploy/oci/host/publish-metrics.py:182-183 | whatever the clock does and however often the file is lost, the stored stamps are, in order, those of exactly the scrapes that every later scrape read and still found recent |
| FailureWindow.IncrementalEqualsFull | deploy/oci/host/publish-metrics.py:182-183 | with a clock that never goes back, expiring step by step equals filtering the whole history once |
| FailureWindow.ReportedIsTheIncrease | deploy/oci/host/publish-metrics.py:180-187 | without restart or cap in the window, the reported number is the increase of the counter since the last scrape outside it |
| FailureWindow.StampsMean | deploy/oci/host/publish-metrics.py:180-183 | a scrape adds as many stamps as whole failures on top, at most one hundred, and after a restart as many as the counter shows |
| CaptureAnswers.MediaCountForRequirement | apps/capture/src/pwa/drafts.ts:138-150 | the number of distinct unblocked media of the requirement, in answers and drafts together, plus its unblocked drafts without a media id |
| CaptureAnswers.CountIsUnordered | apps/capture/src/pwa/drafts.ts:138-150 | the count does not depend on the order of answers or drafts |
| CaptureAnswers.CountedMedia | apps/capture/src/pwa/drafts.ts:138-150 | a medium counts when an answer to the requirement lists it and no blocked draft has it, or when an unblocked draft of the requirement has it |
| CaptureAnswers.ReadyMeans | apps/capture/src/pwa/drafts.ts:137 | a ready draft is uploaded, named, described and complete in every part |
| CaptureAnswers.MergeEffect | apps/capture/src/pwa/capture-policy.ts:36-47 | the reported medium is listed exactly when not blocked, the replaced one leaves, the version grows exactly when the medium was new, the reason stays |
| CaptureAnswers.MergeTouches | apps/capture/src/pwa/capture-policy.ts:36-47 | other requirements, the order of the list and earlier versions are left alone |
| CaptureAnswers.AcceptedReplayIsIdle | apps/capture/src/pwa/capture-policy.ts:44-46 | repeating the report of an accepted upload changes nothing |
| CaptureAnswers.BlockedReplayRaisesVersion | apps/capture/src/pwa/capture-policy.ts:39-43 | repeating the report of a blocked upload keeps the media but always raises the version by one |
| CaptureAnswers.ImpossibleEffect | apps/capture/src/pwa/capture-policy.ts:49-51 | the reason is set, the media stay, the version grows exactly when the reason is new |
| CaptureAnswers.ImpossibleReplayIsIdle | apps/capture/src/pwa/capture-policy.ts:49-51 | repeating a reason changes nothing |
| CaptureAnswers.RunsKeepOrder | apps/capture/src/pwa/capture-policy.ts:36-51 | over any sequence of reports and reasons keys stay unique, media distinct, versions nondecreasing, and answers to requirements not named stay as they were |
| CaptureAnswers.TotalCountsTwice | apps/capture/src/pwa/capture-policy.ts:27-32 | the total compared with the minimum is the number of distinct ready media plus those listed twice |
| CaptureAnswers.ReadyMediaMeans | apps/capture/src/pwa/capture-policy.ts:27-32 | a medium is ready when the answer lists it and every draft of it is complete, or a draft of the requirement with it is complete |
| CaptureAnswers.ExcusedMeans | apps/capture/src/pwa/capture-policy.ts:27-32 | a requirement is excused exactly by an answer with a nonempty reason |
| CaptureAnswers.CheckIsRightIffDisjoint | apps/capture/src/pwa/capture-policy.ts:27-32 | the check means enough distinct media for every possible minimum exactly when none is listed twice or a reason excuses the requirement |
| CaptureAnswers.SatisfiedMeansEnoughMedia | apps/capture/src/pwa/capture-policy.ts:27-32 | when nothing is listed twice, satisfied requirements are exactly those with a reason or enough distinct ready media |
| CaptureAnswers.OnePhotoCountsTwice | apps/capture/src/pwa/capture-policy.ts:27-32 | for every requirement and medium, one uploaded photo with its ready draft satisfies a minimum of two |

## Left out

- Text matching: image references, hashes and build profiles arrive classified (`Image`, `Hex`, `Profile`); patterns are not modelled.
- Canonical hashing: the hash of a receipt is a constructor of that receipt, so it is injective; plan and candidate hashes are left out.
- Git, files, subprocesses, HTTP and the clock: their results are inputs of the methods and events.
- Error texts, and the order of the checks within one candidate item: one error per stage, all item checks give `BadItem`.
- `deploymentId`, `candidateId` of deploys, `createdAt` and schema versions of plans, which only label them.
- The concurrency of the host: installing a plan is one step, and only the state-hash guard of the host script is modelled.
- Uploader.Device.UploadAudioDraft: a call joins only a run of its own tab; in the source it would also join that tab's pending read when the lock was taken, which is no run of the protocol and is not kept as state here.
- The identity of the promise that joined calls share; the store of one note is one row. `UploadProtocol` itself is on values: `Uploader` is where the code's own order of effects is modelled.
- The failure code, status message and creation time of a note, and a `noteId` field that is present but undefined.
- Cross-tab change notifications, the bounded flush before submission, and the removal of bytes without an upload, which has no caller.
- Corruption of stored bytes, without which the check for incomplete local audio before an upload never fails, and the server's own retention after it has received a note.
- MediaRecorder, IndexedDB and Web Locks internals; the browser is assumed to fire the stop event once after recording ends, and listeners of the recorder are assumed not to throw.
- The setup of a recording before its first event, and the text of its messages.
- Identity, roles and membership of the administrator session, and the GraphQL client that retries with it.
- Rounding, infinities and NaN of floating-point numbers: bounds, counts and times are real numbers, with an explicit last bucket.
- Parsing of the metrics text and the other gauges of the publisher.
- How the photo store changes: it may become anything at any moment, quarantined rows included. Readiness for submission, duplicate detection, gallery policy and the resume guard would only add easy members.
