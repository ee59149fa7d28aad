# Flixr, modelled and proved in Dafny

Flixr is a media server.  This project models its stateful protocols and its
algorithmic cores and proves what they are for:

- **Playback manager** (`Playback*.dfy`).  Sessions, FFmpeg generations with leases,
  input tokens, capacity reservations with replacement credits, and two-party
  handoffs.  `PlaybackState` gives every section that runs under the manager's lock
  as a function; `PlaybackManager` is the object whose methods update the tables in
  place and are proved against those functions; `PlaybackMachine` interleaves any
  number of creates, seeks, replacements and handoff preparations, each a sequence of
  sections, with every other operation.  The theorems hold over every run; what each
  operation admits, renews and stops is stated in numbers and names by
  `PlaybackCreate`, `PlaybackAccess` and `PlaybackEffects`.
- **Restore** (`Restore.dfy`).  The journalled publish of database, artwork and
  sidecar, with rollback and roll-forward.  Every file operation is a step whose fate
  (it works, it fails, the process dies before or part way through it) is chosen by
  an arbitrary plan, for the restore and for every later recovery; where an error does
  harm, the theorems say exactly so.
- **Scan jobs** (`ScanJobs.dfy`, `ScanResults.dfy`).  Owner cancel, the scheduler's
  claim and execute, and the scan's commit fence, interleaved section by section.
- **Viewing state** (`Progress.dfy`, `IdentityMerge.dfy`, `IdentityRepairs.dfy`,
  `ViewingRuns.dfy`).  Optimistic tokens on progress rows, completion events, and
  merging two titles with snapshots that can be undone.
- **Refinements**: keyset pagination (`Pagination.dfy`), the retained HLS window
  (`RetainedWindow.dfy`), episode orders and Next Up (`EpisodeOrder.dfy`,
  `EpisodePreview.dfy`, `NextUp.dfy`), subtitles (`CaptionText.dfy`, `Captions.dfy`,
  `SubtitleFiles.dfy`), schedules (`Schedule.dfy`) and retention (`Retention.dfy`).

`dafny verify dfyconfig.toml` checks the whole project.  Each concept has a function
that specifies it; a method that works by changing things is proved equal to that
function, and the lemmas are about the function.

## Where the code does less than it seems to promise

Each of these is a lemma; where one names a condition, it is exact unless its row
says otherwise.

- A recovery ignores errors of its removals, so it can forget an entry it has not put
  right, and a failing restore removes its stage even if its own recovery failed.
  Which errors do harm, in any mixture with crashes, is exact
  (`Restore.RestoreIsAtomicIff`, `Restore.RecoverKeepsIff`, `Restore.RestoreKeepsIff`);
  after harm no recovery helps.  A rollback can leave a restored entry among the old
  ones (`Restore.RollbackIsExactIff`), rolling forward can leave prior entries behind
  (`Restore.ForwardIsCleanIff`), with which the next restore can lose artwork
  (`Restore.LeftoverPriorLosesArtwork`), and a failed put-back can lose the database
  for good (`Restore.FailedPutBackLosesDatabase`).  Without harm any list of restores
  and recoveries ends in the last committed archive (`Restore.ChainIsAtomic`), and harm
  is exactly what ends that (`Restore.ChainGoesAstrayIff`).
- If syncing the first journal fails, every later recovery refuses, and with it every
  restore (`Restore.UnsyncedJournalRefusesForGood`).
- A restore validates its target before it recovers, so after dying between the two
  database moves a retry is refused (`Restore.RetryRefusedBetweenDatabaseMoves`), and
  nothing recovers at start-up.
- A create that has passed its last check when its viewer is revoked still reports
  success, although its session is stopped (`PlaybackRevocation.SucceedsIffDecided`).
- A seek that names no viewer finds a session that is bound to one, but when the seek
  needs a new generation it never replaces that session, unless the owner has stopped it
  meanwhile (`PlaybackCreate.SeekCommitsIff`).
- Cancel and commit of a scan job stay apart exactly as long as three statements do not
  fail in a state where they matter (`ScanJobs.BreaksIffLosing`): the scheduler's read
  of a durable flag that is the only mark (`ScanJobs.FailedReadLosesCancel`), the
  durable mark of a cancel whose intent another cancel shares
  (`ScanJobs.FailedMarkLosesSharedIntent`), and both statements that record the result
  of a committed job, whose row then stays running and accepts a cancel
  (`ScanJobs.FailedRecordAcceptsCancel`).
- A manual watched action keeps the completion id (`Progress.WatchedKeepsCompletionId`).
- After a title that is not well-formed UTF-8 the next page does not start where the
  last one ended (`Pagination.CursorMatchesOrderIff`): some title comes again
  (`Pagination.BadTitleRepeats`) or is left out (`Pagination.BadTitleSkips`), which of
  the two is exact (`Pagination.WrongKeyRepeatsOrSkips`).
- A preview with a negative absolute number is rejected when saved
  (`EpisodePreview.PreviewedIsSavableIff`, `EpisodePreview.NegativeNumberIsRejected`).
- Subtitle times may be negative, by the sign of the milliseconds or by hours that wrap
  around (`Captions.NegativeMillisecondsIff`, `Captions.NegativeTimeIff`), and offsets
  near the end of int64 do not add up (`Captions.ConvertedTwiceIff`).
- An interval schedule whose prior run is out of reach of an int64 duration never
  answers (`Schedule.EndsIff`, `Schedule.CenturiesAgoNeverEnds`).

## Model

| member | source | states |
|---|---|---|
| PlaybackOutcomes.EveryReachableState | backend/playback/manager.go:342-592 | after any run from an empty manager all invariants below hold together: leases, handoffs, owners, accounts, capacity, revocations, outcomes |
| PlaybackRuns.RunsAreSound | backend/playback/manager.go:342-592 | over every run a session with a generation is live iff that registered generation holds its lease with equal expiry, the handoff tables are mutually inverse, and every session, generation, token, preparation, handoff and credit belongs to one call at a stage that explains it |
| PlaybackRuns.StepKeeps | backend/playback/manager.go:349-591 | every single step of every operation keeps that |
| PlaybackRuns.DirectAdds | backend/playback/manager.go:379-387 | a direct session enters the tables with its owner and link |
| PlaybackRuns.ShareAdds | backend/playback/manager.go:406-416 | joining a running generation keeps leases and owners right |
| PlaybackRuns.GrantAdds | backend/playback/manager.go:417-442 | a granted reservation, with or without a credit, keeps leases and owners right |
| PlaybackRuns.PublishAdds | backend/playback/manager.go:499-511 | published input tokens belong to the start in flight |
| PlaybackRuns.AdmitAdds | backend/playback/manager.go:529-554 | an admitted generation, its session and its tokens belong to the call; a credit that is not retained is gone |
| PlaybackRuns.ActivateAdds | backend/playback/manager.go:1112-1165 | activating a handoff pairs two unpaired sessions and takes the call's credit over |
| PlaybackSteps.SectionKeeps | backend/playback/manager.go:349-591 | every other section of a call adds nothing to any table and keeps leases and handoffs right |
| PlaybackSteps.GivesInputsBack | backend/playback/manager.go:492-553 | a call stops holding its input tokens only when they are deleted or its generation is registered |
| PlaybackSteps.GivesCreditBack | backend/playback/manager.go:529-591 | a call stops holding its credit only when it is released or its handoff holds it |
| PlaybackCalls.OwnersMove | backend/playback/manager.go:443-453 | a section that only removes things keeps every owner, if the call returns tokens and credit first |
| PlaybackAdds.JoinKeepsLeases | backend/playback/manager.go:545-553 | a session that joins with its lease keeps sessions and leases one relation |
| PlaybackAdds.CandidateUnpaired | backend/playback/manager.go:1134-1162 | a candidate that was not handed over is in no handoff, nor is its handoff pending |
| PlaybackTables.StopEffect | backend/playback/manager.go:1692-1706 | stopping a session removes it and no other session, and detaches its generation only if no other session leases it |
| PlaybackTables.StopKeeps | backend/playback/manager.go:1692-1706 | stopping keeps sessions and leases one relation and adds nothing |
| PlaybackTables.DetachKeeps | backend/playback/manager.go:1675-1690 | detaching takes the sessions that lease the generation, its tokens and its credit, and keeps the relation |
| PlaybackTables.SetExpiryKeeps | backend/playback/manager.go:737-743 | a renewal gives session and lease the same expiry and changes nothing else |
| PlaybackTables.ExpireSessionsKeeps | backend/playback/manager.go:2009-2018 | the sweep's session loop keeps the relation |
| PlaybackTables.UnpairKeeps | backend/playback/manager.go:1250-1252 | removing a handoff with both its names keeps the tables inverse |
| PlaybackTables.PairKeeps | backend/playback/manager.go:1159-1162 | adding a handoff under two unpaired sessions keeps the tables inverse |
| PlaybackTables.ResolveKeepsWinner | backend/playback/manager.go:1249-1281 | after a resolution the loser is gone, the winner, if it was live, is live for a full lease even if both shared a generation, the handoff is gone with its credit |
| PlaybackTables.ResolutionIsOneShot | backend/playback/manager.go:1213-1247 | repeating an outcome changes nothing and is accepted, the opposite is a conflict and changes nothing |
| PlaybackSections.OutsideKeeps | backend/playback/manager.go:1449-1634 | every lookup of a session or a token, stop, resolve, sweep and shutdown adds nothing and keeps leases and handoffs right; a credit leaves with its handoff and with an owner stop |
| PlaybackSections.StopOwnerKeeps | backend/playback/manager.go:1546-1605 | likewise for an owner stop through preparation, handoff, outcomes and session |
| PlaybackSections.SeekCommitKeeps | backend/playback/manager.go:950-1009 | likewise for committing a seek |
| PlaybackSections.ReplaceCommitKeeps | backend/playback/manager.go:1400-1434 | likewise for committing a replacement |
| PlaybackSections.EndPreparationKeeps | backend/playback/manager.go:1079-1102 | likewise for the deferred clean-up of a preparation |
| PlaybackAdmission.RunsAreAccounted | backend/playback/manager.go:421-453 | over every run the reservation counter, the pending jobs and the viewers' counts are exactly those of the calls in flight, so each is released exactly once on every path, and capacity holds |
| PlaybackAdmission.StepTotal | backend/playback/manager.go:421-442 | only a granted reservation raises generations plus starts, by one, and then the total less its credit fits both limits, the credit naming a generation with exactly one lease |
| PlaybackAdmission.StepKeepsCapacity | backend/playback/manager.go:428-436 | the total never exceeds the limit by more than one, and exceeds it only through a credit |
| PlaybackAdmission.QuietIsClean | backend/playback/manager.go:443-591 | when no call is in flight no reservation, job, viewer count, revocation, stray credit or stray token is left |
| PlaybackRevocation.RevocationWins | backend/playback/manager.go:1611-1647 | over every interleaving with StopViewer, a create registered and undecided at the mark fails, and once both are done no session of the viewer that was live or in flight is live |
| PlaybackRevocation.SucceedsIffDecided | backend/playback/manager.go:571-592 | a create in flight at the mark, of whatever kind of call, reports success iff it had passed its last check; its session is dead all the same |
| PlaybackRevocation.RunsAreSafe | backend/playback/manager.go:1611-1634 | every session a StopViewer found is dead, on its list, or about to be stopped by its own failing create |
| PlaybackRevocation.FailingLasts | backend/playback/manager.go:1637-1647 | the mark lasts until the last registered create of the viewer is done, so a failing create stays failing |
| PlaybackRevocation.StopForKills | backend/playback/manager.go:1475-1527 | stopping one's own live session kills it whatever handoff it is in |
| PlaybackRevocation.StepBrings | backend/playback/manager.go:379-416 | a session comes to life only as the candidate of a call admitted in that step |
| PlaybackRevocation.DeadStaysDead | backend/playback/manager.go:1692-1706 | a session id that was admitted and is not live is never live again |
| PlaybackOutcomes.OutcomeIsFinal | backend/playback/manager.go:1249-1281 | over every run a resolved handoff is never pending again, its record never changes while kept, its loser is never live again |
| PlaybackOutcomes.ResolvedOnceForAll | backend/playback/manager.go:1213-1247 | whatever interleaves, asking again is accepted iff the record is kept and owner and outcome match, and changes nothing |
| PlaybackCreate.ReserveAnswers | backend/playback/manager.go:389-442 | each answer of a reservation and nothing else: refused for capacity iff one more generation, less one that gives its place up, exceeds the count or the bytes; the credit is that of a generation with exactly one lease that nobody replaces yet |
| PlaybackCreate.UndisturbedCreateSucceeds | backend/playback/manager.go:342-592 | over every interleaving, a create that nothing stops, revokes, expires or shuts down, and none of whose own sections fails, ends in success with its session live on its own ready generation or on the one it joined |
| PlaybackCreate.RoomMeansPlay | backend/playback/manager.go:342-592 | from any reachable state with room for one more, an ordinary play of a job that nobody is starting plays on its own ready generation |
| PlaybackCreate.SeekCommitsIff | backend/playback/manager.go:950-1009 | a seek replaces its predecessor iff nothing cancels it, its commit works, its viewer is not revoked, the successor is live, and the predecessor is live, unexpired and of the very viewer that asked, or stopped by the owner |
| PlaybackCreate.ActivatesIff | backend/playback/manager.go:1112-1165 | a handoff is accepted iff nothing cancels it, its viewer is not revoked, the successor is live, and the predecessor is live, unexpired and in no handoff, or stopped by the owner; in the first case both then wait for one lease, in the second the outcome is recorded |
| PlaybackCreate.ReplacesIff | backend/playback/manager.go:1400-1434 | a replacement is accepted iff nothing cancels it, the successor is live, and the predecessor is live or stopped by the owner; then only the successor is live |
| PlaybackAccess.TouchRenews | backend/playback/manager.go:719-748 | an accepted heartbeat leaves exactly a full lease, capped by a pending handoff, fixed by a preparation; any other changes nothing |
| PlaybackAccess.StrangersAreLeftAlone | backend/playback/manager.go:1475-1527 | from any reachable state, whatever a bound viewer looks up, renews, seeks, stops or resolves, every session of another viewer is there afterwards as it was |
| PlaybackEffects.SweepTakesExpired | backend/playback/manager.go:2009-2018 | a sweep takes exactly the sessions that have expired, each with its lease, and changes no other |
| PlaybackEffects.SweepTakesTokens | backend/playback/manager.go:2022-2026 | and exactly the input tokens that have |
| PlaybackEffects.ArrivesForALease | backend/playback/manager.go:379-416 | a session comes to life as its request asked for it, for a full lease |
| PlaybackEffects.TokensForALease | backend/playback/manager.go:499-511 | published tokens are the viewer's for a full lease; joining a generation, which is ready and of the same job, renews its tokens |
| PlaybackEffects.HeartbeatRenewsTokens | backend/playback/manager.go:1756-1765 | the tokens of the session's generation follow its expiry, and no other token does |
| PlaybackEffects.SeekRenews | backend/playback/manager.go:918-941 | a seek within what is retained gives a full lease iff the session is the caller's, plays a generation and is in no preparation or handoff; otherwise nothing changes |
| PlaybackEffects.PreparesIff | backend/playback/manager.go:1032-1057 | a handoff may be prepared from exactly the live, unexpired sessions in no preparation or handoff, while fewer than 128 are pending and fewer than 4 of the viewer; a replacement likewise, without a limit |
| PlaybackEffects.PredecessorIsHeld | backend/playback/manager.go:1065-1075 | a preparation holds its predecessor for a lease and the wait for the manifest, never for less than it had |
| PlaybackEffects.PreparationIsOver | backend/playback/manager.go:1079-1102 | after a preparation that came to nothing a live predecessor has a full lease; either way it is not being prepared any more, and no other session changes |
| PlaybackEffects.ResolveAnswers | backend/playback/manager.go:1213-1281 | a handoff goes to the successor iff that is asked for in time by its viewer; too late is a conflict and the predecessor stays; the winner has a full lease, the loser is gone, the outcome is recorded; anything else changes nothing |
| PlaybackEffects.ExpiryAnswers | backend/playback/manager.go:1283-1295 | a handoff that nobody resolves in time goes to the predecessor, and not before |
| PlaybackEffects.StopReaches | backend/playback/manager.go:1475-1510 | a stop means the live session, else the one an outcome kept in its place, else the candidate of an owner-stopped predecessor |
| PlaybackEffects.StopAnswers | backend/playback/manager.go:1475-1527 | it succeeds iff that one is live and the caller's, and then takes it and its handoff partner and no other session |
| PlaybackEffects.OwnerStopAnswers | backend/playback/manager.go:1546-1605 | an owner's stop takes the session and no other; the other one of its handoff or preparation lives on for a full lease, no outcome names it any more, and the preparation is marked |
| PlaybackEffects.ShutdownIsFinal | backend/playback/manager.go:2064-2085 | after a shutdown no session, generation or token is ever live again, whatever was in flight and whatever is asked for |
| PlaybackEffects.EveryPlayIsItsJob | backend/playback/manager.go:396-416 | over every run a session plays a generation of the job that it asked for, its own or one that it joined |
| PlaybackEffects.EveryCallEnds | backend/playback/manager.go:342-592 | over every run no call is ever stuck, and each is over after at most eleven sections of its own, whatever goes on beside it |
| PlaybackEffects.EveryStopEnds | backend/playback/manager.go:1631-1634 | a StopViewer ends: each of its steps takes one session off its list, and nothing puts one on |
| PlaybackManager.Manager.DetachGeneration | backend/playback/manager.go:1675-1690 | the loops over tokens and leases compute the detached tables |
| PlaybackManager.Manager.StopSessionLocked | backend/playback/manager.go:1692-1706 | the method computes the stopped tables |
| PlaybackManager.Manager.RenewInputs | backend/playback/manager.go:1756-1765 | the loop renews exactly the given tokens |
| PlaybackManager.Manager.RegisterViewer | backend/playback/manager.go:349-359 | a revoked viewer is refused, any other counted |
| PlaybackManager.Manager.FinishViewerCreate | backend/playback/manager.go:1637-1647 | the last create of a viewer clears its count and its mark |
| PlaybackManager.Manager.CreateDirectSession | backend/playback/manager.go:376-387 | the direct section as specified |
| PlaybackManager.Manager.ReserveStart | backend/playback/manager.go:396-442 | share, deny, or reserve with or without a credit, as specified |
| PlaybackManager.Manager.ReleaseReserved | backend/playback/manager.go:443-453 | the reservation, its credit and its job are given back |
| PlaybackManager.Manager.OpenInputs | backend/playback/manager.go:499-511 | tokens are published unless closed or revoked |
| PlaybackManager.Manager.CloseInputs | backend/playback/manager.go:492-498 | the tokens are deleted |
| PlaybackManager.Manager.AdmitGeneration | backend/playback/manager.go:529-553 | generation, session, link and settled tokens, or a refusal that returns job and credit |
| PlaybackManager.Manager.CleanUpManifest | backend/playback/manager.go:558-565 | credit, job and link are given back after a missing manifest |
| PlaybackManager.Manager.FinishAdmission | backend/playback/manager.go:572-581 | the last check, and the generation becomes shareable |
| PlaybackManager.Manager.CleanUpRejected | backend/playback/manager.go:582-589 | credit and link are given back after a rejection |
| PlaybackManager.Manager.TouchSession | backend/playback/manager.go:719-748 | the new expiry is the lease, capped by a pending handoff, fixed by a preparation |
| PlaybackManager.Manager.CommitSeek | backend/playback/manager.go:950-1009 | the seek's commit section as specified |
| PlaybackManager.Manager.BeginHandoff | backend/playback/manager.go:1032-1075 | admitted iff live, unexpired, unpaired and within both handoff limits |
| PlaybackManager.Manager.BeginReplacement | backend/playback/manager.go:1344-1372 | admitted iff live, unexpired and not blocked |
| PlaybackManager.Manager.Activate | backend/playback/manager.go:1113-1165 | the activation section as specified, including the owner-stopped predecessor |
| PlaybackManager.Manager.FinishPreparation | backend/playback/manager.go:1079-1102 | the deferred clean-up as specified |
| PlaybackManager.Manager.ResolveHandoff | backend/playback/manager.go:1213-1247 | the resolution as specified, with every verdict |
| PlaybackManager.Manager.ExpireHandoffFor | backend/playback/manager.go:1283-1295 | an expired handoff is resolved for the predecessor |
| PlaybackManager.Manager.PruneResolved | backend/playback/manager.go:1297-1316 | afterwards no record is expired, at most 128 remain, and at most 4 of any bound viewer |
| PlaybackManager.Manager.DeleteEarliest | backend/playback/manager.go:1318-1330 | the record that goes expires no later than any other of the viewer |
| PlaybackManager.Manager.CommitReplacement | backend/playback/manager.go:1400-1434 | the replacement's commit section as specified |
| PlaybackManager.Manager.StopForViewer | backend/playback/manager.go:1475-1527 | the session, its resolved alias (followed whenever there is one) or its owner-stopped successor is stopped, with its handoff partner |
| PlaybackManager.Manager.StopOwnerSession | backend/playback/manager.go:1546-1605 | the owner stop as specified |
| PlaybackManager.Manager.MarkRevoked | backend/playback/manager.go:1616-1630 | the mark, the pending tokens, and the list of the viewer's sessions |
| PlaybackManager.Manager.StopViewer | backend/playback/manager.go:1611-1634 | with nothing interleaved no session of the viewer survives, and nothing appears |
| PlaybackManager.Manager.SweepSessions | backend/playback/manager.go:2009-2018 | exactly the expired sessions leave, with their leases |
| PlaybackManager.Manager.SweepInputs | backend/playback/manager.go:2022-2026 | exactly the expired tokens leave |
| PlaybackManager.Manager.InputFile | backend/playback/manager.go:1745-1754 | a token answers iff it is there and has not expired; one that does not answer is gone, and no other token is touched |
| PlaybackManager.Manager.CloseManager | backend/playback/manager.go:2064-2085 | a first shutdown empties the live tables, a second changes nothing |
| Restore.RestoreIsAtomicIff | backend/backup/restore.go:97-400 | after a restore that failed or died anywhere and any number of recoveries that failed or died anywhere, a recovery that returns nil, or leaves or finds the stage gone, leaves exactly the old or exactly the restored triple, the restored one iff the published journal was renamed into place, and no prior entry, iff neither the clean-up nor any recovery did harm: forgot an entry whose removal or put-back had failed |
| Restore.RestoreIsAtomic | backend/backup/restore.go:97-400 | that is so under any deaths and any errors but those of removing managed entries and, inside the failing restore itself, of putting back |
| Restore.ChainIsAtomic | backend/backup/restore.go:49-400 | over any list of restores and recoveries, each failing or dying anywhere and none doing harm, the live triple is that of the last restore that committed, or the first one, with no prior entry: at once when the journal or the stage is gone, else after a recovery in which nothing fails |
| Restore.ChainGoesAstrayIff | backend/backup/restore.go:49-400 | after such a list one more restore or recovery leaves a wrong directory that no recovery touches iff it does harm |
| Restore.RepairableUntilHarm | backend/backup/restore.go:326-400 | until harm is done the live entries are final already or a recovery in which nothing fails makes them so |
| Restore.RestoreKeepsIff | backend/backup/restore.go:97-150 | one restore with any errors and any death leaves the directory recoverable iff its clean-up does no harm, and otherwise wrong for good |
| Restore.RecoverKeepsIff | backend/backup/restore.go:326-400 | the same of one recovery; success removes the journal |
| Restore.PublishKeeps | backend/backup/restore.go:298-324 | publishing with any errors and any death stays undoable |
| Restore.WrittenKeeps | backend/backup/restore.go:126-144 | so do both journal writes around it; it is committed iff the published journal is in place |
| Restore.RestoreReturns | backend/backup/restore.go:126-149 | a restore that returns success has committed; one that returns at all leaves the restored triple, or the old one if not committed, and no prior entry, iff its recovery swept every entry |
| Restore.CommittedIff | backend/backup/restore.go:126-144 | a restore commits iff the first journal is written, every present entry is moved aside, every new one installed, the publish synced, the second journal's file written, and its rename takes effect; no other error or death prevents it |
| Restore.SucceedsIff | backend/backup/restore.go:97-150 | it returns success iff it commits, the second journal is synced, and its clean-up ends: no removal kills the process, and the journal's removal and the last sync work |
| Restore.CleanRestoreSucceeds | backend/backup/restore.go:97-150 | a restore in which nothing fails leaves exactly the restored triple, no journal, no stage and no prior entry, and returns success |
| Restore.RollbackIsExactIff | backend/backup/restore.go:369-389 | a rollback whose loop ends well gives the old triple iff every entry that the restore alone created was removed |
| Restore.ForwardIsCleanIff | backend/backup/restore.go:390-394 | a loop that rolls forward leaves no prior entry iff every present one was removed |
| Restore.LeftoverPriorLosesArtwork | backend/backup/restore.go:298-324 | a concrete prior entry left behind makes a later crashed restore lose artwork |
| Restore.FailedPutBackLosesDatabase | backend/backup/restore.go:87-136 | if the database can neither be installed nor, in the same process, be put back, the stage goes all the same, the live database is missing, and every later recovery refuses |
| Restore.UnsyncedJournalRefusesForGood | backend/backup/restore.go:87-128 | if syncing the first journal fails the old triple is untouched, but the journal stays, the stage goes, and every later recovery refuses |
| Restore.MissingStageRefusesForGood | backend/backup/restore.go:356-360 | a journal without its stage refuses every recovery |
| Restore.RetryRefusedBetweenDatabaseMoves | backend/backup/restore.go:50-56 | after dying between the two database moves the next restore is refused by the target check iff there was artwork or a sidecar |
| Restore.Installation.WriteRestoreJournal | backend/backup/restore.go:274-296 | temporary file, rename and sync as specified, for every fate |
| Restore.Installation.PublishStagedInstallation | backend/backup/restore.go:298-324 | the loop over the three entries as specified |
| Restore.Installation.RecoverInterruptedRestore | backend/backup/restore.go:326-400 | both loops and the clean-up as specified |
| Restore.Installation.Restore | backend/backup/restore.go:97-150 | the whole publish, commit and deferred recovery as specified |
| ScanJobs.AcceptedCancelNeverCommits | backend/catalog/scan_scheduler.go:513-570 | over every run without a losing step: if a cancel returns nil, that job's transaction never commits and it never ends succeeded or partial, wherever the cancel lands between claim and commit |
| ScanJobs.LandedJobNeverCancelled | backend/catalog/catalog.go:2018-2029 | likewise a committed job is never recorded as cancelled and no cancel of it is accepted |
| ScanJobs.QueuedJobIsClaimable | backend/catalog/scan_scheduler.go:811-823 | likewise a job put back in the queue because another scan ran is claimable |
| ScanJobs.RunsKeepInv | backend/catalog/scan_scheduler.go:763-859 | likewise the protocol's invariant holds |
| ScanJobs.BreaksIffLosing | backend/catalog/scan_scheduler.go:533-570 | the condition is exact: after a run without a losing step, one more step leaves a way to break these guarantees, without another loss, iff it is losing: a flag that is the only mark is not read, a failed mark forgets an intent that another cancel of a job still open shares, or neither statement records the result of a committed job |
| ScanJobs.LosingLosesCancel | backend/catalog/scan_scheduler.go:782-845 | then a cancel that returned nil and the commit of its job can meet, unless the context was cancelled already when the flag was not read |
| ScanJobs.FailedReadLosesCancel | backend/catalog/scan_scheduler.go:782-791 | a run in which the flag cannot be read commits an accepted cancel's job |
| ScanJobs.FailedMarkLosesSharedIntent | backend/catalog/scan_scheduler.go:533-564 | a run in which one of two overlapping marks fails commits an accepted cancel's job |
| ScanJobs.FailedRecordAcceptsCancel | backend/catalog/scan_scheduler.go:811-845 | a run in which both statements that record the result fail accepts a cancel of a committed job |
| ScanResults.ResultIsRecorded | backend/catalog/scan_scheduler.go:811-845 | over every run without a losing step or a failing record, a job that nobody asked to cancel shows its scan's result: succeeded, partial, failed, interrupted by the server, or queued again |
| ScanResults.UncancelledScanCommits | backend/catalog/catalog.go:2018-2029 | the scan of such a job commits when it gets that far, unless the server ends or the commit fails |
| ScanResults.AcceptedCancelIsRecorded | backend/catalog/scan_scheduler.go:811-845 | a job whose cancel returned nil never waits again, and if it is over it shows that it was cancelled, whatever its scan gave |
| ScanResults.CancelAnswers | backend/catalog/scan_scheduler.go:513-570 | in any reachable state a cancel whose statements work, run through at once, returns nil iff the job waits or runs and its scan has not got to its commit or its end, and what it then does |
| ScanJobs.Scheduler.RegisterCancellation | backend/catalog/scan_scheduler.go:517-539 | the first section of a cancel as specified |
| ScanJobs.Scheduler.MarkDurably | backend/catalog/scan_scheduler.go:550 | the durable mark as specified |
| ScanJobs.Scheduler.SettleCancellation | backend/catalog/scan_scheduler.go:551-564 | the last section of a cancel as specified |
| ScanJobs.Scheduler.CancelScanJob | backend/catalog/scan_scheduler.go:513-570 | the three sections one after the other, with nothing interleaved |
| ScanJobs.Scheduler.ActivateJob | backend/catalog/scan_scheduler.go:763-781 | activation takes a pending intent over |
| ScanJobs.Scheduler.ReadDurableFlag | backend/catalog/scan_scheduler.go:782-791 | the durable flag cancels the active job |
| ScanJobs.Scheduler.CommitScan | backend/catalog/catalog.go:2018-2029 | the commit fence as specified |
| ScanJobs.Scheduler.RecordResult | backend/catalog/scan_scheduler.go:811-896 | the terminal status as specified, with both statements' failures |
| ScanJobs.Scheduler.ExecuteScanJob | backend/catalog/scan_scheduler.go:763-859 | the whole job with nothing interleaved ends in the specified status |
| Progress.RecordAdvances | backend/household/progress.go:52-110 | an observation is accepted only under the current generation, keeps it, and moves the observation up; a refused one changes nothing |
| Progress.BeginFences | backend/household/progress.go:21-47 | beginning raises the generation by one, only from the expected one if there is one |
| Progress.LegacyFences | backend/household/progress.go:147-187 | a legacy write needs the row's generation and raises it |
| Progress.WatchedFences | backend/household/household.go:716-739 | set-watched raises the generation of every listed title and of no other |
| Progress.CheckAgrees | backend/household/progress.go:115-132 | the check says true iff the same observation would be accepted |
| Progress.RecordAcceptsIff | backend/household/progress.go:52-80 | an observation is accepted iff profile, title, position, generation and observation are valid, the generation is the row's and the observation is later than its last |
| Progress.ObservationIsStored | backend/household/progress.go:64-80 | an accepted observation leaves the reported position and time, its generation and number, and the title completed iff it is now or was already in this generation, since when it first was |
| Progress.LegacyIsStored | backend/household/progress.go:147-187 | a legacy write is accepted iff it expects the row's generation, and then leaves what it reports under the next one |
| Progress.BeginAnswers | backend/household/progress.go:21-47 | beginning answers the row's position, 0 for a completed or a new title, and keeps what the row says |
| Progress.WatchedIsStored | backend/household/household.go:716-739 | set-watched marks every listed title completed, past any position, or as not begun |
| Progress.WatchedAnswers | backend/household/household.go:716-739 | it is accepted iff profile and titles are named and there is a title, marks all of them, and touches no other row |
| Progress.WatchedOnce | backend/household/household.go:716-739 | for one title it writes that title's row once, under the next generation, and no other row |
| Progress.CompletionAcceptsIff | backend/household/history.go:81-83 | an observation that completes with an event is accepted iff it would be without one and the event is valid |
| Progress.EventIsStored | backend/household/history.go:87-101 | the event is stored as given, a local completion under the row's completion id where that was left open, iff there is none of its profile, provenance, title and source |
| Progress.RecordKeepsEvents | backend/household/history.go:87-101 | the unique index holds and the completions of one generation share one source |
| Progress.OneEventPerGeneration | backend/household/progress.go:80-104 | at most one event per profile, title and generation when the caller names no source |
| Progress.CompletionIsRecorded | backend/household/progress.go:86-104 | an accepted completion leaves an event under the row's completion id, a new one iff there was none |
| Progress.WatchedKeepsCompletionId | backend/household/household.go:734 | a manual action keeps the completion id |
| Progress.Household.BeginPlayback | backend/household/progress.go:21-47 | the two statements as specified |
| Progress.Household.RecordPlaybackProgress | backend/household/progress.go:52-110 | row and event are written together or not at all, as specified |
| Progress.Household.RecordProgress | backend/household/progress.go:147-187 | both statements as specified |
| Progress.Household.SetWatchedState | backend/household/household.go:716-739 | all titles or none, as specified |
| Progress.Household.AddEvent | backend/household/history.go:87-101 | an event is added iff none has its profile, provenance, title and source |
| ViewingRuns.RunsAdvance | backend/household/progress.go:21-187 | over every run of begin, record, legacy record, set-watched, merge, unmerge, dismissals and scans a generation never decreases, each change of authority raises it, each accepted observation raises the observation |
| ViewingRuns.ResumesAtLastReported | backend/household/progress.go:21-80 | over every run without a manual action, an undone merge or a merge of the title, beginning answers the position that was last accepted for it, or the one before the run if none was; 0 if the title is completed |
| ViewingRuns.StaleTokensAreFenced | backend/household/progress.go:21-187 | once a row has moved on, no write carrying an older token ever changes anything |
| ViewingRuns.CompletionIsFinal | backend/household/progress.go:77-78 | within a generation, after its first observation, a completion is never taken back and its time is fixed |
| ViewingRuns.SameRowMeansNoWrite | backend/catalog/identity_merge.go:174-181 | a row is equal at two moments iff nothing wrote it in between |
| ViewingRuns.UnmergeIsExact | backend/catalog/identity_merge.go:86-99 | merge, any run that leaves it active, unmerge: a row of the two titles whose generation and observation are as the merge left them has its viewing state from before the merge, or is a zero row where there was none, under the next generation; every other row is left as it is |
| ViewingRuns.DismissalsComeBack | backend/catalog/identity_merge.go:262-315 | merge, any run, unmerge: dismissals are as before the merge unless the survivor's has changed since the merge; then both titles carry the newer one |
| ViewingRuns.EpisodesComeBack | backend/catalog/identity_merge.go:195-199 | merge, any run with any scans, unmerge: every episode of the source that still exists is back in its series and season |
| ViewingRuns.UndoRestoresInAnyRun | backend/catalog/identity_merge.go:14-231 | at any moment of any run, merge and unmerge with nothing in between give back titles, dismissals and viewing state |
| ViewingRuns.MergesAgain | backend/catalog/identity_merge.go:14-231 | and the same two titles can be merged again |
| ViewingRuns.EveryReachableDatabase | backend/catalog/identity_merge.go:14-250 | whatever happens after the empty database: running the mappings again changes nothing, and merging any two titles that can be merged and undoing it gives back titles, dismissals and viewing state |
| ViewingRuns.CompletionsStay | backend/household/progress.go:80-104 | an accepted completion leaves its event for good: after any further run there is one of its profile, provenance, title and source |
| ViewingRuns.OneEventOverRuns | backend/household/progress.go:64-105 | at most one event per profile, title and generation over every run |
| IdentityMerge.UndoRestores | backend/catalog/identity_merge.go:14-231 | merge then unmerge: titles, episodes and dismissals exactly as before, viewing state back under newer generations, a zero row where there was none, merges disjoint |
| IdentityMerge.MappingsSettle | backend/catalog/identity_merge.go:233-250 | one run of the mappings on whatever titles and dismissals leaves nothing for the mappings to do |
| IdentityMerge.SettledIsFixed | backend/catalog/identity_merge.go:233-250 | and running them again changes nothing |
| IdentityMerge.MergeSettles | backend/catalog/identity_merge.go:77-109 | a merge leaves such a database |
| IdentityMerge.UnmergeSettles | backend/catalog/identity_merge.go:174-224 | so does an unmerge |
| IdentityMerge.ProgressReturns | backend/catalog/identity_merge.go:87-194 | position, timestamps, completion and completion id of both titles return, and no other row is touched |
| IdentityMerge.NewerWritesAreKept | backend/catalog/identity_merge.go:173-194 | a row is left alone by unmerging iff it was superseded since |
| IdentityMerge.DismissalsReturn | backend/catalog/identity_merge.go:262-315 | dismissals return exactly unless the survivor's changed since; then both titles carry the newer one |
| IdentityMerge.EpisodesReturn | backend/catalog/identity_merge.go:195-199 | every episode with a written-down home is back in its series and season |
| IdentityMerge.MappingsKeepHomes | backend/catalog/identity_merge.go:233-250 | later mappings keep the homes, add those of newly found episodes, and move them all |
| IdentityMerge.MergeStaysDisjoint | backend/catalog/identity_merge.go:42-60 | a merge that is not refused keeps active merges pairwise disjoint |
| IdentityMerge.CopiesFence | backend/catalog/identity_merge.go:90-99 | a merge only gives rows newer generations |
| IdentityMerge.MergesIff | backend/catalog/identity_merge.go:14-76 | a merge is accepted iff no scan runs and the titles are known, different, without versions, in no active merge and, if series, without a saved order |
| IdentityMerge.MergedViewing | backend/catalog/identity_merge.go:88-99 | for every profile the survivor's row has the viewing of its own row before if there was one, else of the source's, and exists iff one of the two did; the source's row keeps its viewing; both under a newer generation; no other row changes |
| IdentityMerge.MergedItems | backend/catalog/identity_merge.go:233-250 | of films and episodes: the source shows that it is merged and is not playable, the survivor is playable iff one of the two is available, and no other title changes |
| IdentityMerge.MergedSeries | backend/catalog/identity_merge.go:233-250 | of series: the source shows that it is merged, its episodes are in the survivor, and no other series or episode moves |
| IdentityMerge.MergedDismissals | backend/catalog/identity_merge.go:239-247 | the survivor has the later of the two dismissals, the source none, and no other changes |
| IdentityMerge.RestoresFence | backend/catalog/identity_merge.go:183-194 | so does an unmerge |
| IdentityRepairs.Repairs.MergeIdentity | backend/catalog/identity_merge.go:14-115 | every refusal in the source's order, and otherwise the merged tables |
| IdentityRepairs.Repairs.UnmergeIdentity | backend/catalog/identity_merge.go:127-231 | every refusal, and otherwise the unmerged tables |
| IdentityRepairs.Repairs.RunMappings | backend/catalog/identity_merge.go:233-250 | the statements compute the mapped tables |
| IdentityRepairs.Repairs.MoveDismissals | backend/catalog/identity_merge.go:239-247 | dismissals of sources move to the survivor, the later one winning |
| IdentityRepairs.Repairs.RestoreRows | backend/catalog/identity_merge.go:173-194 | the loop restores exactly the rows that are still as the merge left them |
| IdentityRepairs.Repairs.Reconcile | backend/catalog/identity_merge.go:262-315 | the loop over profiles computes the reconciled dismissals |
| Pagination.PagesRefineTheList | backend/catalog/viewer.go:391-470 | following cursors for n pages of any limit gives exactly the first n times limit titles of the sorted, filtered list, and the cursors end exactly when it is exhausted |
| Pagination.AllPages | backend/catalog/viewer.go:360-470 | all pages together are the whole list, every id and kind once |
| Pagination.SectionIsListed | backend/catalog/viewer.go:265-281 | in its own order the pages of a section are its whole list whatever its titles; only a genre needs them well-formed |
| Pagination.NewIsNewestFirst | backend/catalog/viewer.go:391-436 | the pages of New are every title, the last added first |
| Pagination.ContinueWatchingIsOpen | backend/catalog/viewer.go:391-436 | those of Continue Watching are exactly the titles with progress that are neither completed nor dismissed, the last watched first |
| Pagination.MyListIsListed | backend/catalog/viewer.go:391-436 | those of My List are exactly the titles that were put on it, the last one first |
| Pagination.GenreIsByTitle | backend/catalog/viewer.go:391-436 | those of a genre are exactly its titles, by folded title |
| Pagination.WholeIsOrdered | backend/catalog/viewer.go:391-436 | those of the whole list are every title, the latest year first or by folded title |
| Pagination.LessIff | backend/catalog/viewer.go:424-433 | a title sorts before another iff it ends first or has the lesser byte where they first differ |
| Pagination.LoweredAt | backend/catalog/viewer.go:391-401 | folding changes the letters A to Z to a to z and nothing else |
| Pagination.WellFormedIff | backend/catalog/viewer.go:473-482 | a title is well-formed iff it is the UTF-8 form of some characters |
| Pagination.CursorMatchesOrderIff | backend/catalog/viewer.go:403-437 | the cursor condition of a mode is its ORDER BY order for every item iff the last title, where the order uses it, is well-formed UTF-8 |
| Pagination.WrongKeyRepeatsOrSkips | backend/catalog/viewer.go:403-429 | some title comes again iff the cursor's key is before SQLite's key of the last title, and some title is left out iff it is after it |
| Pagination.KeysAgreeIff | backend/catalog/viewer.go:473-482 | the cursor's title key is SQLite's iff the title is well-formed UTF-8 |
| Pagination.BadTitleRepeats | backend/catalog/viewer.go:473-482 | a concrete title that is not well-formed follows its own cursor |
| Pagination.BadTitleSkips | backend/catalog/viewer.go:473-482 | after a concrete title that is not well-formed the cursor skips a well-formed title that follows it |
| Pagination.CursorsAreBound | backend/catalog/viewer.go:302-315 | a page's cursor, or the one a section starts with, is accepted for its own listing and for no other |
| Pagination.ReadPage | backend/catalog/viewer.go:438-470 | the reading loop gives the page and the cursor as specified |
| RetainedWindow.ObserveIsExact | backend/playback/manager.go:649-674 | a true sample is answered exactly or refused, refused iff stale or after a missed segment |
| RetainedWindow.AnswersAreExact | backend/playback/manager.go:2030-2044 | over any sampling in any order no answer is wrong |
| RetainedWindow.AnsweredIff | backend/playback/manager.go:649-674 | on a sliding playlist a sample is answered iff every segment before it was seen |
| RetainedWindow.RefusalIsFinal | backend/playback/manager.go:659-667 | a missed segment refuses its sample and all later ones |
| RetainedWindow.ContiguousIsAnswered | backend/playback/manager.go:649-674 | if no segment slides out unseen every sample is answered exactly |
| RetainedWindow.Generation.ApplyRetainedRange | backend/playback/manager.go:649-674 | the loops over the maps compute the specified answer and state |
| EpisodeOrder.SavedIsDisjoint | backend/catalog/episode_order.go:210-248 | an order saved without needing repair maps every episode and gives one context disjoint positions |
| EpisodeOrder.PositionsFit | backend/catalog/episode_order.go:214-225 | every saved position spans as many numbers, and as many shown episodes, as its file holds |
| EpisodeOrder.RepairNeededIff | backend/catalog/episode_order.go:210-242 | saving leaves an order that needs no repair iff it is the aired one without entries, or maps every episode and no number belongs to two episodes of one context |
| EpisodeOrder.NeedsRepairIff | backend/catalog/episode_order.go:153-180 | as episodes come and go a sound saved order needs repair iff an episode is not in it |
| EpisodeOrder.SeriesOrder.CheckEntries | backend/catalog/episode_order.go:210-242 | entries are accepted iff valid, and flagged iff one is unmapped or two clash |
| EpisodeOrder.SeriesOrder.SaveEpisodeOrder | backend/catalog/episode_order.go:190-280 | saved iff order, revision, merge state and entries allow it, else the error the source gives; the new rows and flags, or nothing |
| EpisodePreview.GroupsAreAssigned | backend/catalog/tmdb_episode_order.go:113-146 | positions are 1, 2, 3, ... and every display number is usable except a negative absolute one |
| EpisodePreview.GroupsAreListed | backend/catalog/tmdb_episode_order.go:113-146 | the entries of a group are its numbered episodes, one after the other, under season and episode, disc and place, or absolute number, which is the place if none is given |
| EpisodePreview.PreviewedIff | backend/catalog/episode_order.go:358-392 | a file is previewed at a place iff each of its episode numbers is found once at the provider and these stand there one after the other in one season |
| EpisodePreview.EpisodeOrderGroup | backend/catalog/tmdb_episode_order.go:113-146 | accepted iff no order is negative or repeated among the groups or within one; then the sorts and the running counter as specified |
| EpisodePreview.PreviewedIsSavableIff | backend/catalog/episode_order.go:358-392 | a previewed mapping passes the checks of saving iff its first number is no negative absolute one |
| EpisodePreview.PreviewIsSavable | backend/catalog/episode_order.go:343-392 | without negative absolute numbers a preview is always savable |
| EpisodePreview.NegativeNumberIsRejected | backend/catalog/tmdb_episode_order.go:135-143 | a concrete group whose preview saving rejects |
| EpisodePreview.BuildIndex | backend/catalog/episode_order.go:349-357 | the index gives each key its episodes in order |
| EpisodePreview.Preview | backend/catalog/episode_order.go:343-392 | one entry per episode as specified, and the repair flag |
| NextUp.EpisodeAfter | backend/catalog/next_episode.go:44-139 | every answer, case by case |
| NextUp.NextIsLeast | backend/catalog/next_episode.go:89-138 | the next episode is an eligible incomplete one of the same context strictly after the current, and none such precedes it |
| NextUp.AiredNextIff | backend/catalog/next_episode.go:77-138 | without a saved order the answer is an episode iff it is the offerable one with the least season and episode number after the current, and no other has the same |
| NextUp.SavedNextIff | backend/catalog/next_episode.go:77-138 | with one it is that with the least saved position after the end of the current one's, and none while the order needs repair |
| NextUp.SavedIsUnambiguous | backend/catalog/next_episode.go:133-135 | with a sound saved mapping the ambiguity branch is unreachable |
| NextUp.SavedIsSound | backend/catalog/episode_order.go:214-248 | what saving leaves without repair is such a mapping |
| NextUp.AiredAmbiguity | backend/catalog/next_episode.go:133-135 | the aired order is ambiguous iff the least number belongs to two candidates |
| NextUp.ChainAscends | backend/catalog/next_episode.go:95-103 | every chain of results strictly increases |
| NextUp.ChainIsFinite | backend/catalog/next_episode.go:85-138 | no episode comes twice, so every chain ends |
| Captions.ParseUndoesFormat | backend/captions/captions.go:170-212 | parsing a printed timestamp gives it back, for every time |
| Captions.ConvertedConvertsAgain | backend/captions/captions.go:33-103 | whatever a conversion of any input gives converts again: never malformed and, within the caps, with the same cue times, shifted |
| Captions.ConvertedReparses | backend/captions/captions.go:33-103 | without an offset it gives the very same cue times |
| Captions.BodyReads | backend/captions/captions.go:48-103 | every block that is written is read back as the same cue |
| SubtitleFiles.SubtitlesConvert | backend/captions/captions.go:33-103 | a subtitle file printed by an independent printer, SubRip or WebVTT, numbered or not, with any line end, never is malformed and converts to one cue for each subtitle that has not ended by the offset, in order, at its times less the offset; undoing the entities of a line gives the subtitle's line, and no line holds markup |
| SubtitleFiles.SubtitlesConvertIff | backend/captions/captions.go:33-103 | it converts iff file, number of cues, lines and output are within their caps |
| SubtitleFiles.SupportedIff | backend/captions/captions.go:37-41 | the converter takes what calls itself subrip, srt or webvtt, in any letters and with any space around it, and nothing else |
| SubtitleFiles.PrintedReads | backend/captions/captions.go:45-69 | such a file is read as its subtitles and nothing else |
| SubtitleFiles.StampedReads | backend/captions/captions.go:170-202 | a printed timestamp, with a comma or a dot, is read as its time |
| SubtitleFiles.UnescapeUndoesEscape | backend/captions/captions.go:96 | escaping a line loses nothing |
| SubtitleFiles.EscapedIsInert | backend/captions/captions.go:96 | an escaped line holds no angle bracket, no quote, and no ampersand but an entity's |
| Captions.ConvertedIsGood | backend/captions/captions.go:33-103 | the cue times of a conversion are the input's, shifted, and every cue written is well-formed |
| Captions.TimingLinePrints | backend/captions/captions.go:86-90 | the converter's timing lines parse to their times |
| Captions.ShiftsAddUpIff | backend/captions/captions.go:70-80 | shifting by a and then b is shifting by a + b iff no start runs below int64 only in the sum |
| Captions.ConvertedTwiceIff | backend/captions/captions.go:33-103 | converting a file by a and its output by b gives the cue times of the file shifted by a + b iff no start runs below int64 only in the sum |
| Captions.LargeOffsetsDiffer | backend/captions/captions.go:70-80 | a concrete cue and two offsets that do not add up |
| Captions.NegativeMillisecondsIff | backend/captions/captions.go:189-201 | the millisecond field of an accepted timestamp is negative iff it is a minus sign and two digits that are not both zero |
| Captions.NegativeTimeIff | backend/captions/captions.go:170-202 | an accepted timestamp is a negative time iff it has no hours, minutes and seconds and such a field, or its hours make the milliseconds wrap around |
| Captions.NegativeMilliseconds | backend/captions/captions.go:197-201 | a concrete timestamp with negative milliseconds parses |
| Captions.Convert | backend/captions/captions.go:33-103 | the loops over blocks and lines give the specified text or error |
| Schedule.EndsIff | backend/schedule/next.go:14-16 | the interval loop ends iff the prior run is in the future or within reach of an int64 duration |
| Schedule.StrideLands | backend/schedule/next.go:14-16 | within reach one turn lands after now, by at most one interval, in step with the prior run |
| Schedule.NextRunIsLeast | backend/schedule/next.go:14-17 | the prior run if that is ahead, else after now, in step with it, and no earlier time in step is after now |
| Schedule.CenturiesAgoNeverEnds | backend/schedule/next.go:14-16 | a concrete prior run for which no number of turns ends the loop |
| Schedule.NextInterval | backend/schedule/next.go:7-18 | the next run in step with the prior one after now |
| Schedule.DayRun | backend/schedule/next.go:30-47 | a day's first target minute, or its first later one if the target does not exist |
| Schedule.NextDaily | backend/schedule/next.go:28-53 | always after now: the run of the first of three days still ahead, else a day from now |
| Schedule.FixedZoneRunsOnTime | backend/schedule/next.go:28-53 | in a zone with a fixed offset it is the least instant after now at which the target minute begins |
| Retention.KeptIsCorrect | backend/backup/retention.go:49-65 | a newest archive is kept, at most the count remain, the others are within age, the total is within budget unless only the newest remains |
| Retention.NothingGoesInVain | backend/backup/retention.go:50-65 | an archive goes only if it has count newer ones, is too old, or does not fit the budget beside the newer ones that are kept |
| Retention.NothingGoesIff | backend/backup/retention.go:51-64 | nothing is deleted iff the archives are within all limits |
| Retention.SecondRunIsIdle | backend/backup/retention.go:51-64 | a second run deletes nothing |
| Retention.WithinAge | backend/backup/retention.go:57 | the age test is exact for every limit below the longest duration, and a limit of nothing is none |
| Retention.Destination.DeleteExpired | backend/backup/retention.go:50-65 | the running total equals the kept sizes at every turn, and exactly the others are deleted, or the loop stopped at one that could not be |
| Retention.Destination.Rotate | backend/backup/retention.go:25-66 | policy check, sort and loop: what is left for every outcome |

## Left out

- PlaybackManager.Manager: generations, intents and preparations are values in maps, so aliasing of the source's pointers is modelled by names; the fields stand in four groups.
- UpdateSettings: the settings are fixed; it drops its lock between check and write.
- A candidate session id is unknown to callers until its call returns it, and random tokens are fresh.
- Which stretch a generation retains when it is shared is an arbitrary choice in the playback machine; module RetainedWindow has the range itself.
- The sections of Sweep and StopCatalogIDs are taken entry by entry in the playback machine, which only adds interleavings; the manager's loops over sessions and inputs are methods.
- Process start, exit and retirement, manifest files, subtitle jobs, activity pages and track selection of the playback manager.
- Restore: archive verification, extraction, free space and the safety backup before the publish; fsync is a step that may fail or be the last one, and rename is POSIX's, which replaces an empty directory and no other.
- ScanJobs.Scheduler.CancelScanJob: stated with nothing interleaved; its three sections are the methods beside it, and the theorems over runs interleave them.
- ScanJobs: a job that starts after the scheduler's own context has ended is not told apart from any other.
- ScanJobs: what a scan does between its start and its commit, policies, due times, and the choice of files to retry; a retry is a new queued job.
- Progress: rows of unknown titles are refused by a foreign key that is not modelled, and clearing history may delete events.
- IdentityMerge: artwork bookkeeping, conflict records, decision texts and the in-memory copies; a series' own playable flag.
- IdentityMerge.UndoRestores: stated for a database on which the identity mappings have nothing left to do; MappingsSettle, MergeSettles, UnmergeSettles and ViewingRuns.EveryReachableDatabase show that every reachable one is such.
- Pagination: the SQL joins that make the rows, the access policy as a filter, and the text encoding of cursors, which is taken as lossless.
- RetainedWindow: sequence numbers and offsets are unbounded, and reading the playlist text is left out.
- EpisodeOrder: the transaction is one step, and the provider's network calls are left out.
- NextUp: the path arithmetic that gives an episode its context; contexts are given.
- SubtitleFiles.SubtitlesConvert: for files that can be told apart into blocks; a line of a subtitle that is empty, or space after its last one, is not kept by the source either.
- EpisodeOrder.NeedsRepairIff: an episode that is gone takes its position along, as the foreign key has it; one that moves to another series does not.
- Captions: input is text of Unicode characters, so bytes that are not UTF-8 are left out, and extraction by FFmpeg.
- Captions.ConvertedTwiceIff: within the size caps only, as both conversions must succeed.
- Schedule: the time zone is any function from instants to local days and minutes; the range of Go's Time beyond its durations is unbounded.
- Retention: listing and verifying the archives; their sizes add up without overflow.
- Access policies, playback plans, screens, settings, HTTP handlers and the frontend.
