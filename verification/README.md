# kmonad-device-manager: a verified model

The manager supervises one KMonad process per keyboard. One goroutine owns all of its state and changes it in
discrete steps: reconcile passes and mailbox commands. This project models those steps, the files they write, the text
they read, and the privileged broker beside them, and proves what they keep over every run.

Classes follow the code that changes fields in place; each method is proved equal to a function of the old state, and
the lemmas are about those functions. What the program observes — file bytes, device identities, exits, clocks, the
outcome of each write — is a parameter, so every theorem holds for every environment.

| module | part of the manager |
|---|---|
| `Utf8`, `Quoting`, `Lexer`, `Parser`, `SourceMap`, `Render`, `Trimming`, `Adopting`, `Lossless` | reading and writing the configuration syntax: RFC 3629 sections 3 and 4, Go quoting, two lexers, the behavior parser, validator locations, rendering, adoption and what it loses |
| `Supervision`, `Reconciler`, `Custody`, `Passes`, `Occupancy`, `Handoff`, `Standing`, `Retries` | the supervision state, the pass over it, who owns which process and snapshot, what runs where after it, and what becomes of each configuration and of its failures, told from what the pass finds |
| `Sessions`, `SessionOwner`, `Outcomes` | identification and probe sessions, the retained operations, and what an operation says of how its session ended |
| `ManagedStore`, `Records`, `CrashSafety`, `Adoption` | stored configurations, the external registry, what each write leaves of them, and every disk state a crash can find |
| `Apply`, `StoreSteps`, `Transactions`, `Lifecycle`, `ApplyOwner`, `Requests`, `Revisions` | prepare, validate, commit, roll back; enable, disable, delete; how each request is answered, and why none is carried out for a revision that is gone |
| `Worlds`, `Runs`, `LateChanges` | all of it together over whole runs, with any number of applies in flight: what holds however writes fail, what else holds as long as content is written safely, and what an apply does to changes made since it was prepared |
| `Journal`, `Replays` | the durable idempotency journal, and what a retry is answered |
| `Events`, `Delivery`, `Subscriptions`, `PublicState`, `Announcements` | the event ring, what clients receive, the differences that drive revisions, and what a client may conclude from silence |
| `Broker`, `Reservations` | the launch authorizer, and its answers told from the calls before |
| `Bytes`, `Files`, `Domain`, `Results` | shared vocabulary |

## What does not hold

Some promises fail in the code. Each has lemmas that show how, and one that says exactly when it holds.

* Every record on disk names its content. A record write that fails after its rename leaves a record newer than the one
  in memory, and the next update overwrites the content file it names (`CrashSafety.AheadRecordLosesItsContent`). And if a
  configuration is deleted while an update of it is in flight, the rollback of the update stores its record again without
  the content that was deleted (`LateChanges.DeletedRollbackLosesContent`). Nothing else breaks the promise: over every run
  each crash point is sound exactly if every content file was written where no record named other bytes, and every record
  that was restored found its content (`Runs.SoundExactly`; one write at a time `CrashSafety.ContentWriteIsSafe`,
  `CrashSafety.RecordWriteIsSafe`).
* No external file is suppressed for nobody. Deleting a configuration clears the registry only for adoptions still in
  memory. If an earlier refresh dropped one but could not write the file, the disk keeps suppressing an external file
  (`Adoption.StaleRegistryOrphans`); so does an adoption whose registry write failed after its rename
  (`Adoption.FailedMarkOrphans`); and so does a second adoption of the file, prepared before the first was finished, whose
  registry write fails (`Adoption.SecondMarkOrphans`). Removing a record orphans a file on disk exactly when the registry there still names it
  (`Adoption.RemovalOrphans`).
* No two processes share a keyboard. They do after a pass that refuses an edit naming another keyboard
  (`Occupancy.RefusedEditSharesDevice`) or that finds a file changing while it reads it (`Occupancy.TornFileSharesDevice`):
  both keep a process without claiming its keyboard. A pass leaves two on one keyboard exactly if one of them lingers there
  like this and the other does too or has claimed it (`Occupancy.SharedExactly`).
* A pass loses no snapshot. It forgets the validated snapshot of a configuration that runs unchanged or backs off
  (`internal/manager/supervisor.go:130`, `201-206`, `209-212`; `Occupancy.RevalidatedIsForgotten`), and only then
  (`Passes.SnapshotsAccounted`, a condition on the state and what the pass finds). Since an apply is the only one to hand
  a snapshot over, and does so for a new path (`Passes.NewPathsDoNotLeak`), no run gets there (`Worlds.StepOwned`).
* A rejected apply changes no record: exactly if its failed commit left nothing behind
  (`Transactions.RejectedChangesNothing`). A replaced record, or one that could not be removed after a failed adoption,
  stays.
* An acknowledged change of a configuration stays. An apply in flight stores the configuration as it was prepared, so its
  success undoes a switch (`LateChanges.SwitchIsLost`) or a deletion (`LateChanges.DeletionIsUndone`) made since, and its
  rollback a confirmation (`LateChanges.ConfirmationIsLost`). However the apply ends, the change survives exactly if it left
  things as they were (`LateChanges.LateChangeKeptExactly`), and a deletion exactly if the apply leaves no record
  (`LateChanges.DeletionKeptExactly`).
* Adopting a file keeps everything but its input form. The form is looked for in the raw text, so it can be found in a
  comment, and cutting it out hides the rest of its last line (`Lossless.CommentedFormLosesLine`); the symbols around it
  can become one (`Lossless.GluedSymbolsAreLost`); and trimming takes white space that is none to the lexer,
  such as a no-break space (`Lossless.TrimmedMarkIsLost`). Nothing is lost exactly if the file reads and none of the three happens (`Lossless.AdoptionIsLossless`).
* An operation can be read after it ended. The journal protects 128 operations from pruning and 128 operations are
  retained, so a probe that ends when the journal is full is gone at once (`Sessions.FullJournalLosesProbe`). Which
  operations stay is decided by how many unprotected ones are older (`Sessions.RetainedExactly`).

## Model

| member | source | states |
|---|---|---|
| `Utf8.DecodeInvertsEncode` | internal/manager/validation_location.go:219-237 | the octets RFC 3629 section 3 gives a scalar value decode to that value |
| `Utf8.EncodeInvertsDecode` | internal/manager/validation_location.go:219-237 | whatever decodes is the encoding of the scalar value it decodes to: no overlong forms, no surrogates |
| `Utf8.PositionInjective` | internal/manager/validation_location.go:239-251 | two character boundaries never share a line and column |
| `Utf8.BoundaryIsCharacterStart` | internal/manager/validation_location.go:219-237 | in valid UTF-8 the offsets reached by decoding are exactly the bytes that continue no character, and the end |
| `Utf8.PositionCounts` | internal/manager/validation_location.go:239-251 | the position of a boundary is one more than the newlines before it, and the characters since the last |
| `Utf8.LineColumnOffset` | internal/manager/validation_location.go:219-237 | succeeds exactly for the line and column of a boundary of valid data, the end included, and returns that boundary |
| `Utf8.OffsetLineColumn` | internal/manager/validation_location.go:239-251 | returns the position of the first boundary at or after the offset, so each map undoes the other |
| `Utf8.NextRuneOffset` | internal/manager/validation_location.go:253-259 | steps over exactly one character and stops at the end |
| `Quoting.QuoteRoundTrip` | internal/platform/linux.go:445-461 | every byte string, valid UTF-8 or not, survives quoting and unquoting |
| `Quoting.LettersTold` | internal/platform/linux.go:445-461 | the letters a, b, f, n, r, t and v stand for the control characters they do in Go, both ways |
| `Lexer.TokenizeConfig` | internal/manager/state.go:294-340 | returns the tokens of the lexemes of the data, or the first bad string as its error |
| `Lexer.LineEndsExactly` | internal/manager/state.go:300-304 | a comment ends at the first newline after its semicolon, or with the data |
| `Parser.ParseBehaviorForm` | internal/manager/validation_location.go:97-145 | reads one form whose lexemes are the next ones of the data, with spans in bounds, ordered and nested, or finds it never closes |
| `Parser.ParseBehaviorForms` | internal/manager/validation_location.go:84-95 | succeeds exactly when strings end and parentheses balance, and then the forms are a parse of the data |
| `Parser.ParseUnique` | internal/manager/validation_location.go:84-145 | data has at most one parse |
| `Parser.LexersAgree` | internal/manager/validation_location.go:84-161 | flattened forms are the tokens the tokenizer yields, when every string unquotes |
| `Parser.UnterminatedIsRefused` | internal/manager/validation_location.go:97-145 | data the tokenizer finds unterminated is no parse either |
| `SourceMap.NewBehaviorSourceMap` | internal/manager/validation_location.go:22-42 | the map holds the spans of the assignments of every deflayer form, and only those |
| `SourceMap.AssignmentsExactly` | internal/manager/validation_location.go:31-41 | a span is an assignment exactly if it is that of a child after the second of a top-level list that begins with deflayer |
| `SourceMap.SelectsOne` | internal/manager/validation_location.go:44-82 | a validator range selects at most one span of the candidate |
| `SourceMap.CandidateDiagnosticLocation` | internal/manager/validation_location.go:44-82 | returns a location exactly when the range selects a span inside one assignment, and then that span's |
| `SourceMap.PositionShift` | internal/manager/render.go:61-66 | behind a header of whole lines, a position of the candidate is the behavior's with the header's newlines added |
| `SourceMap.LocationShift` | internal/manager/validation_location.go:44-82 | a returned location covers the validator's bytes, its line lowered by the header's newlines, its column unchanged, in exactly one assignment |
| `Render.DeviceFileFromData` | internal/manager/state.go:278-292 | returns the device of the first input form, or nothing |
| `Render.TokensShift` | internal/manager/state.go:294-340 | text in front of where reading starts does not matter |
| `Render.ContainsManagerOwnedConfiguration` | internal/manager/render.go:69-84 | finds a manager-owned symbol among the tokens, or, in unreadable text, one of the words themselves |
| `Render.OwnedExactly` | internal/manager/render.go:54-84 | a behavior that reads is accepted exactly if its rendered file has one form, one device and one output |
| `Render.ContentTokens` | internal/manager/render.go:54-66 | a rendered configuration reads as the header's tokens followed by the behavior's |
| `Render.RenderThenRead` | internal/manager/state.go:278-340 | reading a rendered configuration yields its device path exactly when the behavior tokenizes |
| `Render.RenderedInputIsUnique` | internal/manager/render.go:54-66 | without manager-owned symbols in the behavior the rendered input form is the only one |
| `Adopting.SExpressionEnd` | internal/manager/adopt.go:75-106 | returns where the scan of the form ends |
| `Adopting.ScanFollows` | internal/manager/adopt.go:75-106 | if no symbol holds a quote, the end found is the matching parenthesis, where the lexer passes |
| `Adopting.GluedDiffers` | internal/manager/adopt.go:61 | a symbol that continues past the cut makes the rest read differently, whatever follows |
| `Lossless.CutIsLossless` | internal/manager/adopt.go:45-61 | wherever the form is found, cutting it out keeps every other token exactly if it was in no comment or string and joins no two symbols |
| `Trimming.TrimSpaceExactly` | internal/manager/adopt.go:61 | trimming takes nothing but Unicode white space characters off both ends, whole ones, and leaves none there |
| `Lossless.TrimIsLossless` | internal/manager/adopt.go:61 | trimming changes no token exactly if it takes only spaces of the syntax and ends of comments |
| `Lossless.AdoptionIsLossless` | internal/manager/adopt.go:45-66 | for every file whose form is canonical the stored behavior keeps everything else exactly if neither step loses anything |
| `Lossless.CommentedFormLosesLine` | internal/manager/adopt.go:45-66 | behind a semicolon a rendered form is accepted, and whatever follows it on its last line is lost, for every device path |
| `Lossless.GluedSymbolsAreLost` | internal/manager/adopt.go:45-66 | symbols right before and after the form become one |
| `Lossless.TrimmedMarkIsLost` | internal/manager/adopt.go:61 | a symbol made of any white space character that is no space of the syntax is trimmed away |
| `Adopting.ManagedModelFromExternal` | internal/manager/adopt.go:45-66 | succeeds exactly for a canonical input form in text that then owns no manager symbol, and keeps the rest |
| `Supervision.DelaysGrow` | internal/manager/supervisor.go:479-489 | up to the fifth failure every retry delay is longer than any before it, whatever the jitter |
| `Supervision.DelayWindow` | internal/manager/supervisor.go:479-489 | a retry delay is within an eighth of its base and never zero |
| `Reconciler.Manager.StopProcess` | internal/manager/supervisor.go:491-531 | releases handle, snapshot and cgroup once, and leaves the phase alone if the process ended in time |
| `Reconciler.Manager.TakePrevalidated` | internal/manager/supervisor.go:229-243 | uses an awaited validation up, or removes its snapshot if it is for other bytes |
| `Reconciler.Manager.ValidateConfigSnapshot` | internal/manager/supervisor.go:345-372 | leaves a snapshot behind exactly when the validation succeeds |
| `Reconciler.Manager.StartConfig` | internal/manager/supervisor.go:267-343 | can only be called without a process, and gives the state and host that starting describes |
| `Reconciler.Manager.Visit` | internal/manager/supervisor.go:67-212 | does to one configuration what its verdict says |
| `Reconciler.Manager.Reconcile` | internal/manager/supervisor.go:31-227 | the loops over configurations and states compute the pass function |
| `Reconciler.Manager.Pause` | internal/manager/identify.go:203-212 | stops the configurations on a device and keeps their states |
| `Custody.ReleaseKeeps` | internal/manager/supervisor.go:491-531 | releasing a process keeps custody and frees no other snapshot |
| `Custody.LaunchKeeps` | internal/manager/supervisor.go:308-343 | installing a launched child from a free passed snapshot keeps custody and uses the snapshot up |
| `Custody.ValidateKeeps` | internal/manager/supervisor.go:345-372 | a validation leaves behind exactly the snapshot it returns, passed and held by nobody |
| `Custody.StartKeeps` | internal/manager/supervisor.go:267-343 | starting keeps custody and leaves no process, or one launched on the state's device from the validated bytes |
| `Custody.AdvanceKeeps` | internal/manager/supervisor.go:131-213 | keeping a claimed configuration up to date keeps custody and leaves an old, a new or no process, accounting for the snapshot in hand |
| `Custody.SuperviseAwaits` | internal/manager/supervisor.go:130 | a claimed configuration uses up the validation that awaited it |
| `Passes.ReconcileKeeps` | internal/manager/supervisor.go:31-227 | every pass keeps custody: each process runs passed bytes with the recorded digest, nothing is shared, everything else is released |
| `Passes.DevicesAreExclusive` | internal/manager/supervisor.go:58-227 | two configurations that run after a pass on the device their file named in it run on different devices |
| `Passes.ReconcileQuiet` | internal/manager/supervisor.go:103-109 | a pass starts nothing on a device a session holds |
| `Passes.PausedKeeps` | internal/manager/identify.go:203-212 | beginning a session leaves no process on its device and touches no other |
| `Passes.SnapshotsAccounted` | internal/manager/supervisor.go:129-213 | a pass leaves other snapshots alone, and forgets none of its own exactly if none awaits a configuration that runs its bytes unchanged or backs off |
| `Passes.NewPathsDoNotLeak` | internal/manager/apply.go:241-246 | a validation that awaits a configuration without a state is never forgotten |
| `Passes.RefusedEditChangesNothing` | internal/manager/supervisor.go:131-152 | a refused edit leaves the process, its bytes, signature and device alone, and releases nothing |
| `Passes.AcceptedEditReplaces` | internal/manager/supervisor.go:153-161 | an accepted edit releases the old process for good; what runs next is the edit on the device it names |
| `Occupancy.SuperviseRuns` | internal/manager/supervisor.go:129-213 | what keeping a claimed configuration up to date leaves running, and on which device, from the state before and what is observed |
| `Occupancy.PassRuns` | internal/manager/supervisor.go:58-227 | after a pass a listed configuration runs on a device exactly if it lingered there without claiming it, or took it |
| `Occupancy.SharedExactly` | internal/manager/supervisor.go:58-227 | two processes share a device after a pass exactly if one lingers there and the other lingers too or took it |
| `Occupancy.RefusedEditSharesDevice` | internal/manager/supervisor.go:138-146 | a pass that refuses an edit which names a new device, and starts another configuration on the device the old process sits on |
| `Occupancy.TornFileSharesDevice` | internal/manager/supervisor.go:85-88 | the same after a file that changes while it is read |
| `Occupancy.RevalidatedIsForgotten` | internal/manager/supervisor.go:130 | a pass over a configuration that runs the bytes which were validated again forgets their snapshot |
| `Handoff.ReconcileGrows` | internal/manager/supervisor.go:31-227 | no pass reuses a number or changes a snapshot's bytes |
| `Handoff.ReconcileHolders` | internal/manager/supervisor.go:229-243 | no pass hands a snapshot from one configuration to another |
| `Handoff.ReconcileConfirms` | internal/manager/supervisor.go:173-178 | only configurations that ran before a pass are confirmed by it |
| `Standing.PassTold` | internal/manager/supervisor.go:64-227 | after every pass, told from each file's safety, content, device and place in the list: past the limit, writable by others, unreadable or without its device a configuration has no state; while its file changes it stays as it was; on a held device it has no process; behind another that asks for its device it is a duplicate without state; otherwise it has a state; and nothing unlisted has one |
| `Standing.UnsafeDirectoryStopsAll` | internal/manager/supervisor.go:46-56 | a pass over a directory that others can write, or that cannot be inspected, leaves no state at all |
| `Standing.OneWins` | internal/manager/supervisor.go:110-121 | of the configurations that ask for a device that is not held, the first listed claims it and no other |
| `Retries.WinnerBecomes` | internal/manager/supervisor.go:124-343 | what a pass makes of a configuration that claims its device, told from its state, its file and what is observed of its process: which of nine events happens, whether it counts as a failure, when the next attempt is due, which process goes on or begins, and what is remembered of the file and the rejected edit |
| `Retries.ConfirmedExactly` | internal/manager/supervisor.go:163-178 | a pass confirms a configuration exactly if it claims the device it already runs these bytes on and its process is healthy |
| `Retries.ClockTold` | internal/manager/supervisor.go:163-175 | over any number of passes the watchdog counts from the first since which the process was not found healthy |
| `Sessions.SessionsAreExclusive` | internal/manager/identify.go:115-212 | while a session holds a keyboard no process runs on it, over every run of passes, applies and cancellations |
| `Sessions.EndsExactlyOnce` | internal/manager/identify.go:134-163 | a session's operation waits and is retained while the session is current, and is published as over exactly once after |
| `Sessions.LateReportsAreIgnored` | internal/manager/inputscan.go:400-429 | a waiter that reports after its session ended changes nothing |
| `Outcomes.StartedExactly` | internal/manager/identify.go:47-120 | a session starts exactly if it is asked for in time, for a device, with a known key if it probes and a timeout from one to thirty seconds, none of its kind is current, and the device is there and can be observed; the refusal says what failed, and what starts waits on its device |
| `Outcomes.EndsAsToldExactly` | internal/manager/identify.go:134-163 | over every run a session's operation is over exactly if a report or a cancellation ended its session, and then it was published as over once, and is retained if at all, as succeeded for a keypress, cancelled for a cancellation, and failed with the timeout or the reason otherwise |
| `Sessions.RetainedExactly` | internal/manager/identify.go:222-241 | an unprotected operation survives pruning exactly if enough unprotected ones are older, up to the order of ties |
| `Sessions.EndedButNotRetained` | internal/manager/identify.go:222-241 | with as many protected operations as are retained, one that just ended is pruned at once |
| `Sessions.FullJournalLosesProbe` | internal/manager/identify.go:222-241 | a probe that just succeeded beside 128 or more protected operations is removed by every pruning |
| `SessionOwner.Owner.StartSession` | internal/manager/identify.go:47-120 | refuses in the order of the source's checks, or records the session and stops what runs on its keyboard |
| `SessionOwner.Owner.FinishSession` | internal/manager/identify.go:134-163 | ends only the current session, prunes, and reconciles |
| `SessionOwner.Owner.CancelSession` | internal/manager/inputscan.go:444-457 | cancels exactly the current session with that operation |
| `SessionOwner.Owner.PruneOperations` | internal/manager/identify.go:222-241 | removes as few as possible of the oldest unprotected operations |
| `ManagedStore.ConfigurationStore.constructor` | internal/manager/managed_store.go:67-94 | a restart keeps exactly the valid records on disk |
| `ManagedStore.ConfigurationStore.StoreManagedConfiguration` | internal/manager/managed_store.go:106-132 | content, then record, then memory; each failed write stops there |
| `ManagedStore.ConfigurationStore.ConfirmManagedConfigurationActive` | internal/manager/managed_store.go:164-177 | the loop over the configurations finds the one that renders to the path |
| `ManagedStore.ConfigurationStore.RefreshExternalConfigurationRegistry` | internal/manager/configurations.go:33-71 | carries an adoption over exactly while the file has the bytes that were adopted |
| `ManagedStore.ConfigurationStore.MarkExternalConfigurationAdopted` | internal/manager/configurations.go:123-142 | adopts a file whose bytes still match, and undoes it in memory if the registry is not written |
| `ManagedStore.ConfigurationStore.ClearExternalConfigurationAdoptionsForManaged` | internal/manager/configurations.go:160-181 | clears every adoption of a configuration, or restores all of them |
| `Records.ConfirmedExactly` | internal/manager/managed_store.go:164-177 | confirming a path makes the content it names the active one of the configuration it names, in memory if the write succeeds and on disk if the file is replaced, and of no other |
| `Records.OpenedExactly` | internal/manager/managed_store.go:67-94 | a restart finds a record exactly if it has a valid identifier, a name, a revision and a device, and takes over the registry |
| `Records.RevisionsRemovedExactly` | internal/manager/lifecycle.go:92-94 | removing a configuration's directory removes its revisions, as far as that succeeds, and no other file |
| `Records.RefreshedExactly` | internal/manager/configurations.go:33-71 | a refresh lists exactly the files found; one with the same bytes as before keeps its known device and stays suppressed exactly if it was, and one with other bytes is not suppressed |
| `Records.MarkedExactly` | internal/manager/configurations.go:123-142 | an adoption succeeds exactly if the file is listed with the bytes read, still has them, and the registry is written; nothing but its adoption changes, and if it fails the file is suppressed on disk exactly if the write replaced the registry |
| `Records.ClearedExactly` | internal/manager/configurations.go:144-158 | taking an adoption back succeeds exactly if it is not this configuration's or the registry is written, and changes nothing else |
| `Records.AllClearedExactly` | internal/manager/configurations.go:160-181 | taking all of a configuration's adoptions back releases exactly its own, or none if the registry cannot be written |
| `CrashSafety.ContentWriteIsSafe` | internal/manager/managed_store.go:121-123 | a content write keeps every record readable exactly when the record on disk does not name other bytes there |
| `CrashSafety.CandidateIsSafe` | internal/manager/apply.go:89-91 | a new revision is written where no record points, as long as the disk is not ahead of memory |
| `CrashSafety.StoreConfigurationKeeps` | internal/manager/managed_store.go:106-132 | storing a candidate is all or nothing in memory, and at every disk state on the way each record names its content |
| `CrashSafety.ConfirmKeeps` | internal/manager/managed_store.go:164-177 | confirming keeps every disk state sound and changes at most one active revision |
| `CrashSafety.AheadRecordLosesItsContent` | internal/manager/managed_store.go:179-209 | after a record write that failed past its rename, the next update leaves a record without its content |
| `CrashSafety.RecordWriteIsSafe` | internal/manager/managed_store.go:134-151 | storing a record keeps every record readable exactly if the content it names is there |
| `CrashSafety.RestoredAfterDeletionLosesContent` | internal/manager/apply.go:300-305 | deleting a configuration, then committing and rolling back an update of it, leaves a record without its content |
| `CrashSafety.RestartIsSound` | internal/manager/managed_store.go:35-95 | a restart on a sound disk finds every record intact and the next update safe |
| `Adoption.RefreshAdopted` | internal/manager/configurations.go:33-71 | a refresh never suppresses a file without its managed configuration; on disk only a failed write breaks this |
| `Adoption.MarkAdopted` | internal/manager/configurations.go:123-142 | an adoption in memory names a stored configuration, and a failed one leaves none |
| `Adoption.RemovalOrphans` | internal/manager/lifecycle.go:83-88 | removing a record orphans a file on disk exactly when the registry there still suppresses one for it |
| `Adoption.StaleRegistryOrphans` | internal/manager/configurations.go:70 | a refresh that cannot be written, then a deletion, leaves an orphan on disk |
| `Adoption.FailedMarkOrphans` | internal/manager/apply.go:220-224 | a mark that fails past its rename, then the removal, leaves an orphan on disk |
| `Adoption.SecondMarkOrphans` | internal/manager/configurations.go:123-142 | a second adoption whose registry write leaves the old file, then the deletion of the first configuration, leaves an orphan on disk |
| `Runs.PreparedIsCommittable` | internal/manager/apply.go:36-134 | what is prepared is the next revision of what is stored, which can be restored, and may adopt |
| `StoreSteps.CommitKeeps` | internal/manager/apply.go:217-225 | a commit stores the candidate, or leaves the records as they were unless something lingers |
| `StoreSteps.ConfirmAllStored` | internal/manager/supervisor.go:175 | confirmations leave a stored record stored, and untouched if its path is not confirmed |
| `Transactions.AwaitedFate` | internal/manager/apply.go:241-246 | after the pass a handed-over snapshot is gone, launched, or still awaiting its configuration |
| `Transactions.RollbackRestores` | internal/manager/apply.go:272-319 | rolled back means the previous record exactly, running if it was; failed and cleaned up means no record |
| `Transactions.ActivationEnds` | internal/manager/apply.go:241-264 | activation ends with the candidate stored and running, or rolled back |
| `Transactions.FinishIsATransaction` | internal/manager/apply.go:183-270 | every reply, errors and failed rollbacks included, leaves the records it says and those of other configurations alone, and the snapshot exists exactly if the process at the new path was launched from it |
| `Transactions.RejectedChangesNothing` | internal/manager/apply.go:154-167 | a rejected apply changes no record exactly when its failed commit left nothing behind |
| `Lifecycle.SetEnabledKeeps` | internal/manager/lifecycle.go:24-70 | an acknowledged change is stored at the next revision, a disabled configuration loses its state, a failed one changes nothing in memory |
| `Lifecycle.DeleteKeeps` | internal/manager/lifecycle.go:72-107 | a deleted configuration is gone from memory and disk, runs nowhere, and suppresses nothing |
| `ApplyOwner.Owner.PrepareManagedApply` | internal/manager/apply.go:36-134 | refuses and rejects in the source's order, or snapshots the next revision |
| `Requests.PreparedExactly` | internal/manager/apply.go:36-134 | an apply is prepared exactly if it names the stored revision of an intact configuration, or a new one with a usable adoption, its model renders, and its client still waits |
| `Requests.ObjectionTold` | internal/manager/apply.go:36-77 | a request that does not address what is stored, stale revisions included, is refused with the code for it and changes nothing |
| `Requests.RefusalTold` | internal/manager/apply.go:36-134 | every other refusal, and every report of a rejection, with its condition |
| `Requests.CandidateTold` | internal/manager/apply.go:86-133 | the candidate has the requested model, and name if any, at the revision after the stored one, and keeps whether that is enabled and what of it was active |
| `Revisions.PreparedNamesStored` | internal/manager/apply.go:54-61 | an update that is prepared named the stored revision, and its candidate is the next |
| `Revisions.StaleIsRefused` | internal/manager/apply.go:59-60 | over every run, once a later revision is stored no update, switch or deletion that names an earlier one begins or changes the store, until an apply of that configuration ends or a crash goes back |
| `ApplyOwner.Owner.FinishManagedApply` | internal/manager/apply.go:183-270 | commit, activation, rollback and deferred cleanup compute the finishing function, and so leave what the reply says of a committable apply |
| `Requests.RepliesTold` | internal/manager/apply.go:183-319 | the reply to every apply, told from the checks, writes and processes observed: an error, rejected, succeeded, rolled back or failed, with the revision it names and whether the rollback failed |
| `ApplyOwner.Owner.RollbackManagedApply` | internal/manager/apply.go:272-319 | gives up what runs or awaits, undoes the commit, and reconciles unless the undoing failed |
| `ApplyOwner.Owner.SetManagedConfigurationEnabled` | internal/manager/lifecycle.go:24-70 | computes the lifecycle function |
| `ApplyOwner.Owner.DeleteManagedConfiguration` | internal/manager/lifecycle.go:72-107 | clears adoptions before it removes the record, and revisions last |
| `Requests.LifecycleObjectionTold` | internal/manager/lifecycle.go:109-124 | a switch or deletion that names no stored configuration, or another revision, is refused with the code for it and changes nothing |
| `Requests.SwitchTold` | internal/manager/lifecycle.go:24-70 | a switch is acknowledged exactly if the device is no virtual output, what is enabled is intact, and the record is written unless it is as requested already; each refusal with its condition |
| `Requests.DeletionTold` | internal/manager/lifecycle.go:72-107 | a deletion is acknowledged exactly if the registry, where it names the configuration, is written, the record is removed, and so are its revisions; each refusal with its condition |
| `LateChanges.LateChangeKeptExactly` | internal/manager/apply.go:183-319 | whatever changed since the update was prepared, and whatever it replies: a rollback keeps the record exactly if nothing changed, any other end of a stored update keeps the switch exactly if it stands as then, and an update that was not stored keeps the record unless what lingers replaces it |
| `LateChanges.DeletionKeptExactly` | internal/manager/apply.go:183-319 | a configuration deleted meanwhile stays deleted exactly if a check at the commit point fails, or the content or the record is not written |
| `LateChanges.DeletionIsUndone` | internal/manager/apply.go:217-236 | an acknowledged deletion is undone by the success of an update prepared before it |
| `LateChanges.DeletedRollbackLosesContent` | internal/manager/apply.go:300-305 | and by its rollback, which leaves a record without its content |
| `LateChanges.ConfirmationIsLost` | internal/manager/apply.go:300-305 | a pass confirms the running content, and the rollback of an update prepared before takes it back |
| `LateChanges.SwitchIsLost` | internal/manager/apply.go:217-236 | an acknowledged switch is undone by the success of an update prepared before it |
| `Worlds.StepOwned` | internal/manager/apply.go:183-319 | passes, applies of any number of configurations at once, lifecycle changes, sessions and crashes keep ownership, however their writes fail |
| `Worlds.WhatRunsWasValidated` | internal/manager/supervisor.go:267-372 | over every run each process runs bytes that passed the dry run and have the digest its state records |
| `Worlds.ReleasedExactlyOnce` | internal/manager/supervisor.go:491-531 | over every run each child is supervised or had its handle closed once, and its cgroup cleaned once |
| `Worlds.SnapshotsAreOwned` | internal/manager/supervisor.go:163-213 | over every run a snapshot exists exactly if one process was launched from it or one apply in flight will hand it over |
| `Worlds.DevicesStayExclusive` | internal/manager/supervisor.go:58-227 | after every pass of a run, those of applies and lifecycle changes included, processes on the devices their files named in it are on different devices |
| `Worlds.DevicesSharedExactly` | internal/manager/supervisor.go:58-227 | after every such pass two processes share a device exactly if one lingered there and the other lingered too or took it |
| `Worlds.ApplySnapshotIsKept` | internal/manager/apply.go:116-133 | an apply in flight keeps its snapshot, and its bytes, through everything else, other applies included |
| `Runs.StepKeeps` | internal/manager/apply.go:183-319 | as long as content is written where no record names other bytes and restored records find theirs, every step keeps every promise of the store, and every apply in flight committable |
| `Runs.SoundExactly` | internal/manager/managed_store.go:106-132 | whatever happens and fails, every crash point so far has sound records exactly if every content file so far was written where no record named other bytes and every restored record found its content |
| `Runs.EveryCrashPointIsSound` | internal/manager/managed_store.go:106-177 | from any sound disk, if no record of an apply is replaced by a write that then fails and no rollback restores a configuration deleted with its content, every crash point has sound records |
| `Runs.NoCrashPointOrphans` | internal/manager/configurations.go:33-181 | if besides no mark is either, every refresh is written and no file is adopted twice at once, no file is orphaned at any crash point or in memory |
| `Runs.EveryApplyIsATransaction` | internal/manager/apply.go:183-270 | whatever else fails, an apply that ends leaves what its report says and the other configurations alone |
| `Journal.OldestFinished` | internal/manager/idempotency.go:158-174 | finds the one finished record that is oldest, or that none is finished |
| `Journal.IdempotencyJournal.Admit` | internal/manager/idempotency.go:134-205 | refuses, replays or starts as the admission function says |
| `Journal.IdempotencyJournal.Complete` | internal/manager/idempotency.go:207-238 | settles a record in memory only once it is written |
| `Journal.IdempotencyJournal.constructor` | internal/manager/idempotency.go:63-106 | loads the journal, finishing as failed what a crash interrupted, or leaves keyed mutations unavailable |
| `Journal.OwedIsReplayed` | internal/manager/idempotency.go:134-205 | a key that has been executed and not evicted is replayed or refused, never started |
| `Journal.ExecutesAtMostOnce` | internal/manager/idempotency.go:63-266 | over every interleaving of requests, completions, failed writes and crashes a key executes at most once between evictions |
| `Journal.OnlyFinishedEvicted` | internal/manager/idempotency.go:157-176 | only the oldest finished record is evicted, and only from a full journal |
| `Journal.UnfinishedIsDurable` | internal/manager/idempotency.go:63-106 | what is unfinished in memory is on disk for the same request and operation, and a crash finishes it as failed, unless the completion had replaced the file and only then failed, which then stands |
| `Replays.StartedExactly` | internal/manager/idempotency.go:134-205 | a new mutation starts exactly if the journal is open, its key unused, there is room and the record is written; a retry is replayed exactly if its request is the same; each refusal with its condition |
| `Replays.StartedTold` | internal/manager/idempotency.go:179-204 | what starts is on record and shown as running, with the kind its method has |
| `Replays.EvictedTold` | internal/manager/idempotency.go:157-204 | admitting a mutation removes the operations of the records that made room, and leaves every other as it was |
| `Replays.ReopenedExactly` | internal/manager/idempotency.go:63-106 | a restart opens the journal exactly if there is none, or its file reads, has the version and size and only well-formed records, and can be written back |
| `Replays.ReopenedRecord` | internal/manager/idempotency.go:79-104 | every record of a reopened journal is as it was if it was finished, and else finished now, as failed, for the same request and operation |
| `Replays.RetryTold` | internal/manager/idempotency.go:134-238 | over every run a retry of a completed key is answered with the operation and error the written completion reported, if that is the operation admitted, and else with a failure; with a failure after a restart had to finish it; and with the running operation while it runs |
| `Replays.CompletionShown` | internal/manager/idempotency.go:207-238 | a completion that is written is recorded as reported and shown like that |
| `Events.EventLog.PublishEvent` | internal/manager/events.go:68-90 | appends to the history, overwrites the ring at its start, and offers the event to every subscriber |
| `Events.EventLog.RetainedEvents` | internal/manager/events.go:132-138 | returns exactly the last 1024 events of the history in order |
| `Events.EventLog.SubscribeEvents` | internal/manager/events.go:92-117 | asks for a resync exactly when forced, ahead of the history, or before what is retained, and else replays the rest |
| `Subscriptions.HistoryTold` | internal/manager/events.go:68-72 | over every run the history is what was published, numbered from one without gaps |
| `Subscriptions.SubscribedExactly` | internal/manager/events.go:92-117 | over every run a subscriber is told to resynchronize exactly if that is forced, its cursor is past every event published, or an event it asks for has been followed by 1024 others; else it is registered anew and replayed every event after its cursor, in order |
| `Subscriptions.OfferedExactly` | internal/manager/events.go:79-89 | over every run an event is queued for a registered subscriber exactly if fewer than 1024 wait there; else the subscriber is dropped and a resync queued |
| `Events.RotateRing` | internal/manager/events.go:73-78 | overwriting the oldest slot of a full ring leaves the last events of the longer history |
| `Delivery.Forwarder.Step` | internal/manager/api_transport.go:596-633 | one turn of the forwarding loop computes the forwarding function |
| `Subscriptions.ForwardedExactly` | internal/manager/api_transport.go:596-633 | a step writes exactly what is next in the replay or the channel it takes, and ends exactly when the write fails, after a resync, when the context is done, or when the events are closed and drained |
| `Delivery.GaplessDelivery` | internal/manager/api_transport.go:596-633 | over every interleaving a client receives a contiguous stretch of history after its cursor, then at most one resync and the end |
| `Delivery.OverflowIsTold` | internal/manager/events.go:79-89 | a subscriber dropped for overflow has its resync queued or has been told |
| `Delivery.NothingLost` | internal/manager/events.go:79-89 | what a live subscriber has received and what waits for it is the whole history after its cursor |
| `PublicState.CaptureCoherent` | internal/manager/diagnostics.go:5-18 | a capture has a diagnostic for exactly its devices |
| `Announcements.CapturedExactly` | internal/manager/events.go:168-191 | a capture holds exactly the devices, operations and managed and external configurations there are, each as it is |
| `Announcements.DeviceDiagnosed` | internal/manager/diagnostics.go:57-77 | every device has a diagnostic about it, whose severity says whether it is connected, disconnected, conflicting or neither |
| `Announcements.ConfigurationDiagnosed` | internal/manager/diagnostics.go:79-99 | so has the last configuration diagnosed under an identifier: fine if it runs or is disabled, temporary while it waits or retries, a warning if it is a duplicate |
| `PublicState.PublishStateChangesBetween` | internal/manager/events.go:198-242 | publishes exactly the notices that are due, stage by stage, in some order of the keys |
| `PublicState.QuietExactlyWhenUnchanged` | internal/manager/events.go:198-242 | a difference publishes nothing exactly when nothing but operations disappeared or last operations changed |
| `Announcements.ToldExactly` | internal/manager/events.go:198-256 | the difference of two captures publishes every event exactly as often as the devices, configurations, operations and diagnostics that differ call for it, each type told from what differs |
| `Announcements.UnmentionedIsUnchanged` | internal/manager/events.go:198-242 | over every run a configuration or device stays as a client read it, up to its last operation, as long as no later event is about it; of a device's removal only the event about its diagnostic tells |
| `PublicState.Publisher.TakeSnapshot` | internal/manager/snapshot.go:13-46 | a snapshot's contents are the state at its own cursor |
| `PublicState.SameRevisionSameState` | internal/manager/events.go:168-242 | two captures at one revision agree, whatever happened in between |
| `Broker.KeyInjective` | internal/platform/broker.go:319-325 | keys of valid identifiers name one user and one configuration or snapshot |
| `Broker.BrokerAuthorizer.RegisterGrant` | internal/platform/broker.go:127-139 | registers a valid grant unless one is filed under its key |
| `Broker.BrokerAuthorizer.Authorize` | internal/platform/broker.go:143-191 | decides and audits as the step function says |
| `Broker.BrokerAuthorizer.AbortStart` | internal/platform/broker.go:196-210 | releases exactly the launch the authorization reserved |
| `Reservations.StartAnsweredExactly` | internal/platform/broker.go:143-176 | over every run a start is authorized exactly if it is well-formed, no earlier start of the user's configuration lasts, and a grant of its snapshot for that configuration is unspent and unexpired; each refusal with its condition |
| `Reservations.EndAnsweredExactly` | internal/platform/broker.go:177-190 | over every run a stop or cancel is authorized exactly if a start lasts, and returns the snapshot of that start |
| `Reservations.RegistrationAnsweredExactly` | internal/platform/broker.go:127-139 | over every run a grant is registered exactly if its identifiers are valid, it has not expired, and no grant of the snapshot is unspent |
| `Reservations.AbortAnsweredExactly` | internal/platform/broker.go:196-210 | over every run the authorization a start returned can be aborted exactly if no stop, cancel or abort came since, or the launch that lasts now was started later from the same snapshot |
| `Reservations.ReservedExactly` | internal/platform/broker.go:143-210 | over every run a reservation is there exactly while a start lasts, and holds its snapshot |
| `Reservations.FiledExactly` | internal/platform/broker.go:127-176 | over every run a grant is on file exactly from its registration until a start uses it or finds it expired |
| `Reservations.AuditedExactly` | internal/platform/broker.go:244-284 | every request adds one audit record that says what was asked and answered, an abort one if it goes through, a registration none |
| `Broker.BrokerAuthorizer.RecordAudit` | internal/platform/broker.go:244-265 | keeps the last 256 entries by shifting the full slice |
| `Broker.LaunchConservation` | internal/platform/broker.go:127-325 | authorized starts less stops, cancels and aborts is one or zero per user and configuration, and says whether a launch is active |
| `Broker.TotalConservation` | internal/platform/broker.go:127-325 | summed over everyone they are the number of active launches |
| `Broker.StartUsesUnusedGrant` | internal/platform/broker.go:143-191 | an authorized start used an unexpired grant registered for it that no start had used since |
| `Broker.GrantConservation` | internal/platform/broker.go:127-191 | accepted registrations less the starts that spent them say whether a grant is filed |
| `Broker.OtherUsersUntouched` | internal/platform/broker.go:143-210 | no call changes another user's grants or launches |
| `Broker.AuditIsSuffix` | internal/platform/broker.go:244-284 | the audit slice is the last 256 entries of the full log |

## Left out

- Integer widths: revisions, event and subscriber numbers are unbounded; the source uses 64-bit counters.
- SHA-256 is an injective function and fresh identifiers are unused ones; external configurations are keyed by their file name, of which the source keys by a hash of the path.
- `Reconciler.Manager.Reconcile`: configuration states are values in a map, so aliasing of state pointers is not modelled; the order of the map walk and of the sorted paths is any order; counters, log lines, failure texts and the status file are left out.
- `Reconciler.Manager.StopProcess`: signals and waiting are reduced to their three outcomes; a child that ignores the kill is released like any other, as in the source.
- `Apply.Reconcile`: the confirmations of a pass are written after the pass instead of within it; nothing in between reads what they change.
- `Runs.EveryCrashPointIsSound`: a durable write is taken to stay durable; applies in flight are of different configurations.
- `Worlds.WhatRunsWasValidated`: any number of applies are in flight, but at most one for each configuration; a pass lists only configurations that are enabled, intact and not suppressed, as the listing of the source does; a restart begins with an empty runtime directory, and with the failures the status file restores.
- `Transactions.FinishIsATransaction`: stated for writes that are safe, and a configuration that nobody else applies between preparation and end; switches, confirmations and deletions in between are covered.
- `CrashSafety.CandidateIsSafe`: tampering with the manager's files from outside is not modelled.
- `Sessions.EndsExactlyOnce`: the two sessions are one type in two slots; shutdown, which drops sessions without ending their operations, ends the run.
- `Quoting.QuoteRoundTrip`: which code points print is a parameter that only has to be false of the control characters it names.
- `Delivery.Forwarder.Step`: a turn of the forwarding loop is one step; the connection is whether a write succeeds.
- `ManagedStore`: JSON, the byte limit and the ownership field are left out, and a record on disk is either readable or not there; names are compared to the empty string where the source trims them.
- The regular expressions of `parseValidatorRange`, the key-token table, device discovery, /proc, cgroups, evdev and systemd are parameters or not part of this model.
- Sockets, framing, the command line, help, completions, the doctor, metrics and logging are not part of this model.
