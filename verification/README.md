# Credential and observability protocols, verified

This project models the parts of the agent container that keep OAuth
credentials alive and tell whether agents can still use them, and proves what
each protocol promises over every input, every interleaving and every failure.

One module per component:

- `TokenRotation`: any number of refreshers sharing one credential file and a
  server that rotates single-use refresh tokens (section 6 of RFC 6749, with the
  `invalid_grant` error of its section 5.2). Each call is an automaton, a run is
  any sequence of events, and the imperative call is proved to be such a run.
- `RemotePeer`, `SnapshotPush`: replacing a credential on a peer by staging,
  verifying and renaming, over a transport in which every operation may not
  happen, may happen and report failure, or may stop half-way and report success.
  Guarantees are stated for every state the peer passes through.
- `KeepaliveGuards`, `KeepalivePush`: what a keepalive run may send, and the whole
  guarded convergence around the push.
- `Utf8`, `Journal`: cutting captures at a byte budget (section 3 of RFC 3629)
  and a one-generation rotating log.
- `UsageSnapshot`, `UsageCollect`: the normaliser of cached usage, and the worker
  pool with deadline and grace window that feeds it.
- `SpendLedger`, `QuotaCache`, `RefreshAlarm`, `DuplicateAccounts`: ledgers,
  caches and dedupe rules judged over whole histories.
- `ActiveLogin`, `SyncLive`: rewriting the live login with verify-or-restore, and
  mirroring it into per-account stores.
- `Assess`: the fold from three-valued signals to a three-valued verdict, over
  any table its validation accepts.
- `RestartLog`, `AuthHeal`: the attempt/outcome log of restarts and the
  supervised pass over a fleet.
- `Json`, `Wrappers`: documents as the standard decoder yields them, and shared
  result types.

Files are values and their operations methods of a class; clocks, networks,
child processes and the outcome of every operation come from a plan that
statements quantify over. Fingerprints are taken to be injective. Money is in
whole micro-dollars.

`dafny verify dfyconfig.toml` checks everything.

Where the code and its documentation disagree the model follows the code:

- A refresh reported as rejected is documented as a dead token.
  `TokenRotation.RejectedWhileAlive` is a fault-free run in which it is not one,
  and `TokenRotation.RejectedIsDeadUnlessCarried` says exactly when it is.
- The data record kept beside a truncated capture states the limit as the number
  of bytes kept; the marker states the true number
  (`Journal.RecordedKeptBytesIsTheLimit`, `Journal.RecordCanBeWrong`).
- A store's credential is documented to always belong to that store's account;
  `SyncLive.WriteFilesRightIff` and `SyncLive.OnlineTakeoverIff` say when it does.
- The downgrade guard is documented to hold whatever floor the operator passed.
  It rests on a probe that can be cut short in silence:
  `KeepalivePush.SilentProbeCostsACredential` is a run in which it fails, and
  `KeepalivePush.KeepalivePush` says that it holds otherwise.
- The supervised pass documents exit code 1 for a wedged agent; with the auditors
  as shipped it is never returned (`AuthHeal.ExitCodeMeaning`).
- The quota reader documents that its match rule finds the account. It does
  exactly when `QuotaCache.ReaderAnswersForTheAccount` says so, and
  `QuotaCache.SpentAccountReadsAsIdle` is a round after which it does not.

One asymmetry is the code's own: a worker lost while collecting has its row marked
as failed, one lost in the grace window leaves no mark, so that its row can pass
for final. `UsageCollect.SilentExactlyWhenBrokenLate` is the exact condition and
`UsageCollect.CollectUnfinished` a run.

## Model

| member | source | states |
|---|---|---|
| TokenRotation.CurrentTokenHasOneKeeper | src/scitex_agent_container/_account/token_refresh.py:139-176 | In every run of any number of refreshers, with any faults, the server-current refresh token is on disk, carried by exactly the call it was granted to, or lost; the three exclude each other and two calls are never carrying it together |
| TokenRotation.DiskGenerationMonotone | src/scitex_agent_container/_account/token_refresh.py:139-176 | Between any two moments of any run, whatever fails, the stored token never becomes an older one |
| TokenRotation.AtMostTwoPosts | src/scitex_agent_container/_account/token_refresh.py:367-382 | A call POSTs at most twice, the second time with a strictly newer token than the first |
| TokenRotation.NothingLostWithoutFaults | src/scitex_agent_container/_account/token_refresh.py:139-280 | While no answer is dropped, no write fails and no process dies, no token is lost, in any interleaving |
| TokenRotation.QuiescentDiskIsCurrent | src/scitex_agent_container/_account/token_refresh.py:139-414 | In a fault-free run, once every call has returned the file holds the server-current pair |
| TokenRotation.RejectedMeansSomeoneElseRotated | src/scitex_agent_container/_account/token_refresh.py:370-396 | A call that ends rejected sent a token that a different call had rotated away, and was itself granted nothing, whatever the faults, provided the file was live at the start |
| TokenRotation.LostIsForever | src/scitex_agent_container/_account/token_refresh.py:383-396 | Once the current token is lost nothing is ever granted again and the file is never current again |
| TokenRotation.CarrierCanFinish | src/scitex_agent_container/_account/token_refresh.py:139-176 | While the current token is being carried, its carrier alone can bring it to disk |
| TokenRotation.RecoverableIffNotLost | src/scitex_agent_container/_account/token_refresh.py:370-396 | From any reachable state some continuation makes the file current without a login if and only if the token is not lost |
| TokenRotation.RejectedIsDeadUnlessCarried | src/scitex_agent_container/_account/token_refresh.py:192-195 | When a call has ended rejected, the account can come back without a login exactly if the file is current or another call is carrying the token: the exact condition under which the documented reading of a rejection, that the stored token is dead, is wrong |
| TokenRotation.FaultFreeRejectionIsNotDeath | src/scitex_agent_container/_account/token_refresh.py:370-396 | In a fault-free run from a live file every account that sees a rejection can come back without a login |
| TokenRotation.RejectedWhileAlive | src/scitex_agent_container/_account/token_refresh.py:192-195 | A concrete fault-free run in which a call ends rejected although the account recovers by itself |
| TokenRotation.ReadingCurrentSucceeds | src/scitex_agent_container/_account/token_refresh.py:361-382 | A fresh call, or a refused one re-reading, that reads a current file and meets no fault succeeds and leaves the next generation on disk |
| TokenRotation.RunKeepsInv | src/scitex_agent_container/_account/token_refresh.py:139-414 | Every step of the protocol keeps the invariant that ties file, temporary, server and every call together |
| TokenRotation.Installation.PersistRotatedTokens | src/scitex_agent_container/_account/token_refresh.py:139-176 | The three persist steps among arbitrary steps of others, each allowed to fail silently: the world stays a run of the protocol and the call ends in success; when none of the three writes fails the granted pair is on disk and current, and under a plan without faults the run has none |
| TokenRotation.Installation.RefreshAccessToken | src/scitex_agent_container/_account/token_refresh.py:179-280 | One POST with its classified answer: success only once persisting was attempted, a first rejection leads to reconsidering, everything else ends the call with that kind |
| TokenRotation.Installation.RefreshAccountCredentials | src/scitex_agent_container/_account/token_refresh.py:321-414 | A whole call, others acting before each of its steps: what it leaves is a run of the protocol, free of faults when the plan is, and what it reports is how its automaton finished, the single retry included |
| SnapshotPush.StatRemote | src/scitex_agent_container/_account/snapshot_push.py:286-310 | Two spellings tried in order; the first readable answer is the truth about mode and size |
| SnapshotPush.StageAndVerify | src/scitex_agent_container/_account/snapshot_push.py:405-439 | Staging never touches the live path at any state; success means a complete 0600 staged file, and a failed staging whose removal happens leaves none |
| SnapshotPush.WriteInPlace | src/scitex_agent_container/_account/_snapshot_publish.py:108-120 | The fallback writes only the live and staged paths and leaves a prefix of the payload live when it reports success |
| SnapshotPush.ProveLive | src/scitex_agent_container/_account/_snapshot_publish.py:122-137 | Success means the live path is the whole payload with mode 0600; a live path that does not verify is removed if the removal happens; an unreadable one is left as it was |
| SnapshotPush.PublishVerified | src/scitex_agent_container/_account/_snapshot_publish.py:64-137 | The fallback is taken exactly when the rename was refused as busy, and without it the live path is old or complete in every state; success by either method means the whole payload with mode 0600 |
| SnapshotPush.PushSnapshot | src/scitex_agent_container/_account/snapshot_push.py:329-461 | For every transport behaviour: at every state a push goes through, and so after a crash anywhere, a push that did not fall back has the live path old or (payload, 0600), and it falls back only if one of its operations was refused as busy; a push that returns has the payload complete; a refused push does nothing; a fault-free one succeeds by rename; one that is refused as busy and then fails in place leaves exactly what that write left |
| SnapshotPush.InPlaceWriteCanTear | src/scitex_agent_container/_account/_snapshot_publish.py:112-118 | One interrupted in-place write leaves something live that is neither the old file nor the payload |
| SnapshotPush.FallbackRunCanTear | src/scitex_agent_container/_account/_snapshot_publish.py:100-120 | A whole push over a given plan, refused the rename as busy and cut off in the write that follows: it returns an error, and the last state of the peer it returns has a live file that is neither the old one nor the payload |
| SnapshotPush.LiveOkAcross | src/scitex_agent_container/_account/snapshot_push.py:405-451 | Staging and publishing compose: what publishing guarantees from the staged state holds from the state before the push |
| KeepaliveGuards.ScanIsExact | src/scitex_agent_container/_account/_keepalive_guards.py:47-64 | The scan reports a path exactly when a refresh-material key sits there, at any depth, in any document |
| KeepaliveGuards.FindRefreshKeys | src/scitex_agent_container/_account/_keepalive_guards.py:47-64 | The nested loops compute that scan, in traversal order |
| KeepaliveGuards.MintedArtifactIsClean | src/scitex_agent_container/_account/mint_token.py:187-201 | Whatever token, expiry and text scopes are read, the minted artifact holds no refresh key at any depth |
| KeepalivePush.AdmittedPayloadIsFit | src/scitex_agent_container/_account/_keepalive_guards.py:173-234 | An admitted payload meets the validity floor, carries the master token and expiry, holds refresh material at no depth, and with a floor of a second or more downgrades no peer |
| KeepalivePush.FitMasterIsAdmitted | src/scitex_agent_container/_account/_keepalive_guards.py:173-234 | Every healthy master holding both tokens with validity at the floor is admitted |
| KeepalivePush.FloorDecidesDowngrade | src/scitex_agent_container/_account/_keepalive_guards.py:237-263 | Some admitted payload would downgrade some peer if and only if the floor is below one second |
| KeepalivePush.SilentProbeCostsACredential | src/scitex_agent_container/_account/token_keepalive.py:188-224 | Under any floor below one second there is a run over a given plan, faulty only in that its probe was cut short and said nothing, in which a master read in the present with no whole second left replaces a working credential |
| KeepalivePush.InstallProbe | src/scitex_agent_container/_account/_keepalive_remote.py:155-169 | Only the probe path is written; a reported success means the probe landed whole unless its own write was cut |
| KeepalivePush.ReadRemoteState | src/scitex_agent_container/_account/_keepalive_remote.py:197-235 | A probe that landed whole tells the truth or fails; a torn one may also exit zero in silence, which reads as an absence |
| KeepalivePush.VerifyRemoteToken | src/scitex_agent_container/_account/_keepalive_remote.py:238-263 | A status comes only from a live token, and is the one the server gave |
| KeepalivePush.BackupRemote | src/scitex_agent_container/_account/_keepalive_remote.py:266-284 | A reported backup holds the content the live path had; only the backup path is written |
| KeepalivePush.PushedTokenIsLive | src/scitex_agent_container/_account/token_keepalive.py:218-224 | When the one document sent survives rendering and parsing, the pushed bytes read back as exactly the master access token |
| KeepalivePush.Replace | src/scitex_agent_container/_account/token_keepalive.py:216-224 | Back up, then push: the backup holds what was replaced, only three paths are written, and the live path is never torn unless an operation was refused as busy |
| KeepalivePush.Update | src/scitex_agent_container/_account/token_keepalive.py:191-224 | The report alone decides: nothing live is written without a report that wants a push and does not forbid it, and with such a report and no fault after it the payload is live |
| KeepalivePush.Converge | src/scitex_agent_container/_account/token_keepalive.py:191-230 | A record needs status 200 after the push or the comparison |
| KeepalivePush.ConvergeThenTidy | src/scitex_agent_container/_account/token_keepalive.py:190-232 | The probe is removed however the run ended, and its removal changes nothing that was established |
| KeepalivePush.KeepalivePush | src/scitex_agent_container/_account/token_keepalive.py:110-252 | A refused run never speaks to the peer; whatever else fails, a credential that is current or would be downgraded is untouched in every state, unless the probe was torn and silent (for a downgrade, only under a floor below one second), and then it is replaced if nothing else fails; the live path is old or complete in every state unless an operation was refused as busy; a record means status 200 and, when the document sent reads back, the master token live; a reported backup is the replaced content; with nothing in the way a record is returned |
| KeepalivePush.SecondRunWritesNothing | src/scitex_agent_container/_account/token_keepalive.py:192-206 | Two runs in a row on one peer: if the first returned a record, the second, with the same master token and a probe that is not silenced, writes nothing live, whatever else fails, and reports already-current when nothing is in its way; a first run that may converge and has nothing in its way does return one |
| KeepalivePush.RecordLeavesNothingToPush | src/scitex_agent_container/_account/token_keepalive.py:192-206 | Wherever the live token is the master token and a probe can read it, no later admission of the same master has anything to push: its report is converged and its run must leave the live path alone |
| KeepalivePush.ProbeNamesTheLiveToken | src/scitex_agent_container/_account/_keepalive_remote.py:87-95 | Comparing the probe report with the payload fingerprint is comparing the live token with the payload token |
| Utf8.DecodeOfCut | src/scitex_agent_container/_agentstate/_journal.py:113-116 | Decoding an encoding cut at any byte, errors ignored, yields exactly the characters that fit whole |
| Utf8.FittingIsExact | src/scitex_agent_container/_agentstate/_journal.py:113-116 | A prefix fits a byte budget exactly when it is no longer than the computed one |
| Utf8.LittleIsWasted | src/scitex_agent_container/_agentstate/_journal.py:113-116 | What a cut leaves unused is less than one character, at most three bytes |
| Utf8.RoundTrip | src/scitex_agent_container/_agentstate/_journal.py:113-116 | Decoding an encoding returns the text |
| Journal.CutIsLongestFittingPrefix | src/scitex_agent_container/_agentstate/_journal.py:103-122 | A cut capture is the longest prefix whose encoding fits, its length in (limit-4, limit], followed by a marker with its true length and the true total; anything within the limit is untouched |
| Journal.NegativeLimitCutsFromTheEnd | src/scitex_agent_container/_agentstate/_journal.py:113-122 | A negative limit counts from the end, as slicing does, and the same holds of what is left |
| Journal.RecordedKeptBytesIsTheLimit | src/scitex_agent_container/_agentstate/_journal.py:163-171 | The data record stored beside a cut gives the limit as the kept bytes; it is the record of what was kept exactly when some prefix fills the limit to the byte |
| Journal.RecordCanBeWrong | src/scitex_agent_container/_agentstate/_journal.py:163-171 | A two-byte letter under a limit of one: nothing is kept and the record says one byte was |
| Journal.DecimalReadsBack | src/scitex_agent_container/_agentstate/_journal.py:117-122 | The numbers printed in the marker read back as themselves |
| Journal.CutCaptures | src/scitex_agent_container/_agentstate/_journal.py:161-171 | The loop stores every capture cut to the limit and lists exactly the cut keys |
| Journal.NoCaptureIsOverwritten | src/scitex_agent_container/_agentstate/_journal.py:161-171 | However many captures a record holds, each is stored cut to its limit and each cut keeps its data record, when no key is another key plus the suffix |
| Journal.FilesHoldASuffix | src/scitex_agent_container/_agentstate/_journal.py:125-202 | After any appends, each whole or refused, with rotation allowed to fail, the kept generation followed by the current file is exactly the accepted lines since the last successful rotation but one, in order |
| Journal.NothingMissingBeforeTwoRotations | src/scitex_agent_container/_agentstate/_journal.py:125-139 | Before the second successful rotation the two files hold every accepted line |
| Journal.AcceptedLineIsLast | src/scitex_agent_container/_agentstate/_journal.py:178-181 | An accepted line is the last line of the current file |
| Journal.JournalStaysBounded | src/scitex_agent_container/_agentstate/_journal.py:125-202 | After an append whose rotation could be performed, the current file is below the cap plus the record |
| Journal.EveryRecordReadsBack | src/scitex_agent_container/_agentstate/_journal.py:205-227 | Reading a file of whole records yields one item a record in order, and a torn last line one more, as data |
| Journal.ReadingYieldsTheNewestRecords | src/scitex_agent_container/_agentstate/_journal.py:142-227 | After any run of appends, reading yields exactly the records accepted since the last successful rotation, in order |
| Journal.StateJournal.RotateFile | src/scitex_agent_container/_agentstate/_journal.py:125-139 | The file moves aside exactly when it exists, has reached the cap and the rename works |
| Journal.StateJournal.AppendState | src/scitex_agent_container/_agentstate/_journal.py:142-202 | An append is rotation, then one whole line or a reported failure |
| Journal.StateJournal.ReadJournal | src/scitex_agent_container/_agentstate/_journal.py:205-227 | The reading loop yields one item for every non-blank line, parsed where it parses |
| UsageSnapshot.SafeSnapshot | src/scitex_agent_container/_account/provider_usage_projection.py:129-178 | The revalidating loops compute the pure revalidation |
| UsageSnapshot.SafeIsIdempotent | src/scitex_agent_container/_account/provider_usage_projection.py:129-178 | Revalidating a revalidated snapshot at the same moment changes nothing, for any calendar that reads back the instants it produces |
| UsageSnapshot.PercentagesAddUp | src/scitex_agent_container/_account/provider_usage_projection.py:53-65 | Every revalidated percentage lies in 0..100 and adds up with what remains to 100 |
| UsageSnapshot.KnownEarlierToo | src/scitex_agent_container/_account/provider_usage_projection.py:42-50 | A snapshot known at one moment is known at every moment since it was fetched, window by window |
| UsageSnapshot.ProjectionReadsBack | src/scitex_agent_container/_account/provider_usage_projection.py:68-178 | What a provider answer projects to is returned unchanged at the moment it was fetched: windows, balances, currency, the cost when its start is readable, and the usage state unless a cost without a start was all that had been measured |
| UsageCollect.ResultRow | src/scitex_agent_container/_account/provider_usage_inventory.py:155-177 | A row is known only with the fresh revalidated answer; otherwise an older body is retained, never as known, and an error is set |
| UsageCollect.Worker | src/scitex_agent_container/_account/provider_usage_inventory.py:107-136 | A worker names its own target in every message, sends its cached row first and its last words after, and fetches exactly when due and in time |
| UsageCollect.Spawn | src/scitex_agent_container/_account/provider_usage_inventory.py:244-265 | At most three starts of the worker for this target on fresh pipes, and none only after three were recorded as failed; the pipe returned is that worker pipe and every other end is closed |
| UsageCollect.LaunchNext | src/scitex_agent_container/_account/provider_usage_inventory.py:235-269 | The target at the head of the queue gets a worker of its own on a pipe of its own, or after three failed starts its row is marked failed |
| UsageCollect.Hear | src/scitex_agent_container/_account/provider_usage_inventory.py:180-187 | What is read from the pipe of the worker for a target is the next thing that worker sent and is filed in its row; a broken pipe changes nothing and is recorded against that worker alone |
| UsageCollect.Attend | src/scitex_agent_container/_account/provider_usage_inventory.py:270-315 | One look at one worker has exactly one outcome for what it meets: a waiting message is filed, a broken pipe or a worker found dead ends it as gone after a last look, and an idle live worker is left alone |
| UsageCollect.AttendLate | src/scitex_agent_container/_account/provider_usage_inventory.py:325-358 | One look in the grace window: nothing waiting leaves the worker alone, a last word or a broken pipe ends it, and only the broken pipe leaves the row as it was |
| UsageCollect.CollectUntil | src/scitex_agent_container/_account/provider_usage_inventory.py:232-319 | Collecting ends only when nothing is pending or active, or at the deadline; it ends targets only as not started or gone; if the first chances are prompt every place is filled |
| UsageCollect.Drain | src/scitex_agent_container/_account/provider_usage_inventory.py:320-360 | Draining ends only when no worker is left, or when the grace window is over, and ends workers only by a last word or a broken pipe |
| UsageCollect.StopAll | src/scitex_agent_container/_account/provider_usage_inventory.py:361-375 | Every straggler ends as stopped, is closed and seen off, and nobody else ends |
| UsageCollect.MarkPending | src/scitex_agent_container/_account/provider_usage_inventory.py:376-377 | Exactly the rows still pending become deadline rows |
| UsageCollect.Collect | src/scitex_agent_container/_account/provider_usage_inventory.py:203-378 | For every behaviour of workers and clock: row i describes target i; every target is pending or has one end; a pending row is untouched but for the deadline error, any other is the last row its worker sent (or the opening row) with the mark of its end; an end is not-started only after three failed starts, gone exactly if the worker was lost while collecting, broke-late exactly if its pipe hung up in the grace window and not before, said-last only after a last word; nothing is left pending before the deadline or stopped before the grace window is over; a prompt start starts as many targets as there are places; at most four workers run, each is seen off, and every pipe end is closed once; the loops terminate |
| UsageCollect.SilentExactlyWhenBrokenLate | src/scitex_agent_container/_account/provider_usage_inventory.py:329-341 | The row of a started target whose last word never came shows no error if and only if its pipe hung up in the grace window and not before, after a message without an error |
| UsageCollect.CollectUnfinished | src/scitex_agent_container/_account/provider_usage_inventory.py:320-341 | A run of the collection over a given plan in which that happens: the row is the cached one, without an error, though no last word was heard |
| UsageCollect.EndsAnswer | src/scitex_agent_container/_account/provider_usage_inventory.py:232-376 | From what was run into before and after the grace window opened, how each target ended is decided |
| SpendLedger.BestPriceIsBest | src/scitex_agent_container/_account/openai_usage.py:179-185 | The price used belongs to the longest prefix that applies, or none applies |
| SpendLedger.FindPrice | src/scitex_agent_container/_account/openai_usage.py:179-185 | The table loop finds that row |
| SpendLedger.TableOrderIsIrrelevant | src/scitex_agent_container/_account/openai_usage.py:73-84 | The same rows in another order price every model alike |
| SpendLedger.EstimateCost | src/scitex_agent_container/_account/openai_usage.py:166-187 | A cost needs a known model and two whole counts, and is the exact cost rounded once |
| SpendLedger.TotalIsSumOfDays | src/scitex_agent_container/_account/openai_usage.py:212-251 | After any sequence of recordings the total is, field by field, the sum of the day buckets |
| SpendLedger.AgentsAndTheRestMakeTheTotal | src/scitex_agent_container/_account/openai_usage.py:243-246 | Agent buckets and the turns naming no agent add up to the total |
| SpendLedger.AgentsNeverExceedTotal | src/scitex_agent_container/_account/openai_usage.py:243-246 | With non-negative counts the agent buckets never exceed the total in any field |
| SpendLedger.SpendIsNearlyExact | src/scitex_agent_container/_account/openai_usage.py:186-209 | Recorded spend is within half a micro-dollar per priced turn of the exact cost |
| SpendLedger.ReadSpend | src/scitex_agent_container/_account/openai_usage.py:254-300 | One pass over the days computes today, the last seven days and everything, skipping keys that are no dates |
| SpendLedger.SummaryAgreesWithLedger | src/scitex_agent_container/_account/openai_usage.py:254-300 | What is read agrees with what was recorded: the total is the ledger total and today <= seven days <= total |
| SpendLedger.LedgerFile.Accumulate | src/scitex_agent_container/_account/openai_usage.py:200-209 | A bucket gains exactly the turn, or nothing when a count cannot be converted |
| SpendLedger.LedgerFile.RecordUsage | src/scitex_agent_container/_account/openai_usage.py:212-251 | A recording replaces the ledger as a whole or leaves it alone, and returns the day bucket |
| ActiveLogin.SetTokensTouchesThree | src/scitex_agent_container/_account/active_login_write.py:217-221 | Of a token block only the three token fields change |
| ActiveLogin.OnlyTokensChange | src/scitex_agent_container/_account/active_login_write.py:66-80 | The rewritten document has its block in the same place and differs only inside it, in the three fields |
| ActiveLogin.AcceptableMeansValid | src/scitex_agent_container/_account/active_login_write.py:131-144 | The rewritten block validates exactly when both tokens are more than blanks and the resulting expiry is positive |
| ActiveLogin.LoginFiles.SyncActiveLogin | src/scitex_agent_container/_account/active_login_write.py:147-266 | For every failure of a file operation and every serializer: in every state the live file is the original or the whole new text, and in every state in which it is not the original the backup holds the original; a refusal leaves the original byte for byte; success means the live text validates; without failures it succeeds exactly when the new text reads as valid, and when that text reads back as the document written, exactly when the document and tokens allow |
| DuplicateAccounts.ProvisionalOwners | src/scitex_agent_container/_account/account_verify.py:296-301 | Pass one: the first member of every group |
| DuplicateAccounts.SettledOwners | src/scitex_agent_container/_account/account_verify.py:303-309 | Pass two: a verified member displaces an owner nobody verified |
| DuplicateAccounts.MarkDuplicates | src/scitex_agent_container/_account/account_verify.py:263-328 | Length, order and every field but the mark are kept |
| DuplicateAccounts.OwnerNameIsOwners | src/scitex_agent_container/_account/account_verify.py:296-309 | With distinct names the two passes settle on the first verified member of a group, or its first member when none is verified |
| DuplicateAccounts.MarkingPointsAtOwners | src/scitex_agent_container/_account/account_verify.py:311-328 | A marked row points directly at its owner, which shares its identity and is unmarked; a row without an identity is untouched |
| DuplicateAccounts.OnlyOwnersStandAlone | src/scitex_agent_container/_account/account_verify.py:311-328 | Of the rows with an identity exactly the owners are left unmarked |
| DuplicateAccounts.VerifiedMembersOwn | src/scitex_agent_container/_account/account_verify.py:97-104 | At most one row of a group is trustworthy, and it is the owner |
| DuplicateAccounts.OneRowPerIdentity | src/scitex_agent_container/_account/account_verify.py:263-328 | The unmarked rows with an identity are as many as there are distinct identities |
| RefreshAlarm.Alarm.AlertFailedRefreshes | src/scitex_agent_container/_account/refresh_alarm.py:188-258 | One run folds its results over the state, saves it when dirty and writable, and returns exactly the acknowledged alerts |
| RefreshAlarm.OneAlertPerReportedOutage | src/scitex_agent_container/_account/refresh_alarm.py:215-258 | Over any history an account is alerted on once per outage in which a delivery succeeded, and is in the state exactly while its current outage is one of those |
| RefreshAlarm.AccountsAreIndependent | src/scitex_agent_container/_account/refresh_alarm.py:215-258 | No other account influences alerts or state of an account |
| RefreshAlarm.SavedRunsAreOneHistory | src/scitex_agent_container/_account/refresh_alarm.py:215-258 | While every run saves, the count holds across runs |
| RefreshAlarm.UnsavedRunAlertsAgain | src/scitex_agent_container/_account/refresh_alarm.py:253-258 | A run whose state could not be saved is forgotten, and the same outage is alerted on twice |
| RestartLog.RunIsFaithful | src/scitex_agent_container/_authevents/_log.py:267-332 | For any interleaving, crashes and dropped writes, the log holds exactly the attempts recorded and the successes shown, once each |
| RestartLog.UnresolvedIsExact | src/scitex_agent_container/_authevents/_log.py:400-427 | An attempt is listed exactly when its record landed and no success of it landed |
| RestartLog.FailuresAreNeverOmitted | src/scitex_agent_container/_authevents/_log.py:400-427 | A recorded attempt that crashed, raised or returned False is listed, whichever writes were dropped |
| RestartLog.UnresolvedWhenAllWritesLand | src/scitex_agent_container/_authevents/_log.py:400-427 | When all writes land the list is exactly the attempts that did not come back having worked |
| RestartLog.UnresolvedHasNoRepeats | src/scitex_agent_container/_authevents/_log.py:400-427 | No attempt is listed twice |
| RestartLog.PerformIsThreeEvents | src/scitex_agent_container/_authheal/_pass.py:236-293 | An uninterrupted restart is attempt, act and outcome in that order |
| RestartLog.AuthLog.Perform | src/scitex_agent_container/_authheal/_pass.py:186-293 | Nothing is logged or spent unless the budget allows it and it is asked for; then one restart is spent and both records are written around it |
| Assess.ValidateSpecs | src/scitex_agent_container/_agentstate/_spec.py:260-292 | A table is refused exactly when it is invalid, naming the first row at fault and why |
| Assess.VerdictMeaning | src/scitex_agent_container/_agentstate/_assess.py:112-201 | Unknown exactly when no decisive signal refutes and a load-bearing one is unread; False exactly on a decisive refutation or a fully observed one; True exactly when all load-bearing signals are healthy; the exit code splits alike |
| Assess.VerdictIsMonotone | src/scitex_agent_container/_agentstate/_assess.py:112-201 | A verdict given is the verdict of every state that says more |
| Assess.OneMoreReadingKeepsVerdict | src/scitex_agent_container/_agentstate/_state.py:129-143 | Recording a signal nobody had read keeps a verdict already given |
| Assess.UnknownIsUndetermined | src/scitex_agent_container/_agentstate/_assess.py:153-172 | An unknown verdict has an unhealthy completion, and a healthy one exactly when nothing load-bearing refutes yet |
| Assess.OnlyDirectObservationConvictsBlind | src/scitex_agent_container/_agentstate/_assess.py:123-151 | While something load-bearing is unread, only a signal observed first-hand can make the verdict False |
| Assess.UnresolvedIsExact | src/scitex_agent_container/_agentstate/_assess.py:120-121 | The unread list is exactly the unread load-bearing signals, once each, whatever the verdict |
| Assess.DecidingIsExact | src/scitex_agent_container/_agentstate/_assess.py:128-201 | The deciding list is the unread, the refuting, all load-bearing or the one decisive signal, as the verdict requires |
| Assess.EvidenceNeverMatters | src/scitex_agent_container/_agentstate/_assess.py:120-120 | Signals that are not load-bearing never change the verdict |
| Assess.TableOrderNeverMatters | src/scitex_agent_container/_agentstate/_assess.py:112-201 | Neither table order nor a repeated row changes the verdict or the unread signals |
| Assess.UnreadAgentIsUnknown | src/scitex_agent_container/_agentstate/_state.py:112-127 | An agent nobody could read is unknown as soon as the table has a load-bearing row |
| SyncLive.SlugsCollideExactlyOnSeparators | src/scitex_agent_container/_account/creds_sync.py:99-107 | Two emails share a store exactly when, trimmed and lower-cased, they differ only in separators |
| SyncLive.ChangeIsAFresherSave | src/scitex_agent_container/_account/creds_sync.py:385-419 | A store changes only by a save of the live credential, still valid and expiring later than what it replaces |
| SyncLive.ExpiryNeverFalls | src/scitex_agent_container/_account/creds_sync.py:316-447 | Over any run of syncs no expiry in any store ever falls |
| SyncLive.NothingExpiredIsEverSaved | src/scitex_agent_container/_account/creds_sync.py:333-338 | Whatever a store holds was there at the start or was the live credential of a run that found it valid |
| SyncLive.RepeatIsNoOp | src/scitex_agent_container/_account/creds_sync.py:385-393 | Repeating a sync changes nothing and reports up to date while the credential is valid |
| SyncLive.LostLabelStaysLost | src/scitex_agent_container/_account/creds_sync.py:414-419 | A save whose label did not land is not repaired by repeating it |
| SyncLive.OfflineNeverCrossesAccounts | src/scitex_agent_container/_account/creds_sync.py:395-408 | An offline run never touches a store recording another account |
| SyncLive.OnlineRunsFileRight | src/scitex_agent_container/_account/creds_sync.py:349-376 | When every run is online each written store holds a credential of the account it is named after |
| SyncLive.WriteFilesRightIff | src/scitex_agent_container/_account/creds_sync.py:349-376 | A write is sure to be filed under the right store, whoever owns the live credential, exactly when the server was asked |
| SyncLive.OfflineRunCanMisfile | src/scitex_agent_container/_account/creds_sync.py:395-419 | An offline run can store another account under a store recording the stale profile |
| SyncLive.OnlineTakeoverIff | src/scitex_agent_container/_account/creds_sync.py:99-107 | While a store holds an older credential of one account, a verified fresher credential of another replaces it exactly when the two emails differ at most in separators |
| SyncLive.CollidingAccountTakesTheStore | src/scitex_agent_container/_account/creds_sync.py:395-419 | Online, an account with a colliding slug takes over a store recording another account |
| SyncLive.AccountStore.SyncLive | src/scitex_agent_container/_account/creds_sync.py:316-447 | One sync leaves the stores and reports the result the guards, in order, decide |
| QuotaCache.RowIsAllOrNothing | src/scitex_agent_container/_account/quota_cache_refresh.py:247-307 | A row either failed and holds nothing, or holds the three figures a reader insists on |
| QuotaCache.Cache.RefreshOne | src/scitex_agent_container/_account/quota_cache_refresh.py:247-307 | The row is filled in step by step to exactly that row |
| QuotaCache.Cache.TryAll | src/scitex_agent_container/_account/quota_cache_refresh.py:148-171 | Every named account is tried; successes replace entries, failures leave them, and the counts agree |
| QuotaCache.Cache.RefreshQuotaCache | src/scitex_agent_container/_account/quota_cache_refresh.py:126-184 | A round with no account writes nothing; any other replaces the file once |
| QuotaCache.EntryIsTheNewestSuccess | src/scitex_agent_container/_account/quota_cache_refresh.py:126-184 | Over any run an account entry is the row of its newest success, absent if it never had one |
| QuotaCache.EmptyRoundsWriteNothing | src/scitex_agent_container/_account/quota_cache_refresh.py:145-146 | Rounds that find no account leave the file as it is, even absent |
| QuotaCache.StampIsTheLastWrite | src/scitex_agent_container/_account/quota_cache.py:398-417 | The time on the file is that of the last round that wrote it |
| QuotaCache.RunIsWellKept | src/scitex_agent_container/_account/quota_cache_refresh.py:151-168 | Every cached entry answers to the short of its own key and to no other |
| QuotaCache.FirstAnswer | src/scitex_agent_container/_account/quota_cache.py:291-303 | The search loop returns the first entry that answers |
| QuotaCache.ReaderAnswersForTheFirstKey | src/scitex_agent_container/_account/quota_cache.py:264-303 | The reader answers with the newest success of the first account cached under the short |
| QuotaCache.ReaderAnswersForTheAccount | src/scitex_agent_container/_account/quota_cache.py:264-303 | A cached account is answered with its own newest success exactly when its trimmed name has a short and the first account cached under that short has the same entry |
| QuotaCache.FirstUnderItsShortIsAnswered | src/scitex_agent_container/_account/quota_cache.py:264-303 | Being the first cached under its short is enough, and with distinct shorts every account is |
| QuotaCache.CollidingShortsAnswerAlike | src/scitex_agent_container/_account/quota_cache.py:291-303 | Accounts with one short always get one answer, so one of two differing ones is answered wrongly |
| QuotaCache.SpentAccountReadsAsIdle | src/scitex_agent_container/_account/quota_cache.py:291-303 | A concrete round of two accounts after which the nearly spent one is answered with the nearly idle one |
| AuthHeal.MarkerLine | src/scitex_agent_container/_authheal/_positional.py:100-110 | The loop finds the last marker |
| AuthHeal.PositionalMeaning | src/scitex_agent_container/_authheal/_positional.py:113-177 | Unknown without an anchor; otherwise dead exactly when a banner follows the last marker |
| AuthHeal.HistoricalMeaning | src/scitex_agent_container/_authheal/_admission.py:34-43 | A banner is reported historical exactly when there is one and none follows the last marker |
| AuthHeal.AuthHealPass | src/scitex_agent_container/_authheal/_pass.py:340-419 | For any auditors: one report per auth-failed agent in order, then registry and unread ones; at most one restart per admission, none without --apply; with no admission nothing is logged, restarted or saved |
| AuthHeal.ScheduledPass | src/scitex_agent_container/_authheal/_admission.py:26-57 | With the shipped auditors no input makes a pass restart, spend, save or log anything |
| AuthHeal.ExactlyOneReport | src/scitex_agent_container/_authheal/_pass.py:340-419 | Every captured or registered agent is clean and unreported, or has exactly one report |
| AuthHeal.ExitCodeMeaning | src/scitex_agent_container/_authheal/_pass.py:126-183 | Exit 0 exactly when the registry was read, no agent is auth-failed and every unread agent has no session; every other pass exits 2 |
| AuthHeal.AuditOnlyObserves | src/scitex_agent_container/_authheal/_reports.py:44-94 | Every report of an audit is an observation, never an action |

## Left out

- TokenRotation: the expiry fields are not modelled, and neither are a login by the operator, other programs writing the file, or a server that grants without rotating; the file lock is left out because renaming makes it guard an inode no later caller opens.
- KeepalivePush.KeepalivePush: assumes the destination is not itself named like the probe, because the probe would then overwrite the credential.
- KeepalivePush.ReadRemoteState: a probe cut short either speaks the truth, fails, or exits zero in silence; a torn script that prints something else does not arise.
- KeepalivePush.AdmittedPayloadIsFit: the account health gate and the choice of refresh holder are a yes-or-no parameter, because the account store that decides them is not part of this model.
- SnapshotPush: modes of directories on the peer are not modelled, only those of files.
- Utf8: a character is a Unicode scalar value, so text with lone surrogates, which the original cannot encode, does not arise.
- Journal.NoCaptureIsOverwritten: needs keys that are not each other plus the suffix; with such keys the original overwrites a capture, and so does the model.
- Journal.StateJournal.ReadJournal: translation of other line endings and replacement of undecodable bytes are left out.
- Journal.StateJournal.AppendState: a write is whole or refused; a torn line is covered by the reader alone (`Journal.EveryRecordReadsBack`).
- UsageSnapshot: dates are read by a given calendar that reads back what it produces (`UsageSnapshot.BoundedCalendarsCanBeFaithful`: one of finitely many years can); window names that are not text are left out.
- UsageCollect.Worker: a worker is a sequence of messages; what makes a fetch slow or a process die is part of the plan that drives the parent, and which of the running workers a join is about is not recorded.
- UsageCollect.AttendAll: workers are visited in any order, not only in insertion order.
- SpendLedger.SpendIsNearlyExact: rounding of binary floating point is not modelled; prices are exact and a cost is rounded once, ties to even.
- SpendLedger.ReadSpend: ledgers damaged by hand beyond a key that is no date are left out.
- SyncLive.ExpiryNeverFalls: expiries are finite; one written as infinity or not-a-number reads as absent here.
- SyncLive.SlugsCollideExactlyOnSeparators: lower-casing is that of ASCII letters; a slash in an address, which would nest directories, is not interpreted.
- QuotaCache.Cache.RefreshOne: hours to expiry are exact instead of rounded to two decimals; which file readers and writers resolve to is left out.
- ActiveLogin.LoginFiles.SyncActiveLogin: symbolic links and undecodable bytes in the live file are left out; an exception of a file operation is an outcome of its own.
- Assess: the reason texts and raw captures that travel with a state are left out, and so are the wording and the entries of the shipped table.
- AuthHeal: matching banners, markers and frozen panes in rendered text is given by uninterpreted predicates; the matcher lists agents in any order without repetition instead of sorting them; budget checks are a verdict per agent.
- DuplicateAccounts.MarkingPointsAtOwners: needs distinct names, because the original compares owners by name.
- Sending mail, tmux, ssh, HTTP, subprocesses, audit records and log wording are left out.
- The file watcher, the store replication engine, command-line shims and the rate-limit and status helpers are not part of this model; they would add only short tables and plumbing.
