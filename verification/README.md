# EFZ: supervisor, journal, client, launcher and counters

EFZ runs fuzzing inputs in a separate Erlang virtual machine. This project models the parts around that machine that
have to be right when it crashes, hangs or lies, and proves what they promise:

- **The external supervisor** (`priv/efz_external.py`). `Decoder.dfy` is the streaming frame decoder, `Storage.dfy`,
  `Records.dfy`, `Scripts.dfy` and `Journal.dfy` the write-ahead journal on a file system that can lose power,
  `Supervisor.dfy` what each block of the event loop does, `Messages.dfy` exactly which handshakes and PREPAREs are
  taken, `Lifecycle.dfy` what all blocks keep over whole campaigns, `Rounds.dfy` which blocks the loops run for what
  they meet, `Controller.dfy` the event loop and the restart loop as an object, `History.dfy` journal and controller
  together over any history of kills, power cuts and restarts, `Legibility.dfy` when every run of such a history reads
  back, and `Witness.dfy` and `Outages.dfy` campaigns and histories that show where a promise ends.
- **What a campaign does, said without the state machine.** `WorkerRows.dfy` reads off the bytes of a row what it is,
  what it writes and how it is answered, `Causes.dfy` off each block what stops a generation. On these stand, over whole
  campaigns, `Stopping.dfy` (deadlines, stop reasons, when a worker is left, the verdict on its run), `Bookkeeping.dfy`
  (counters, refusals, log, quarantine, the record of a run), `Restarts.dfy` (behind which worker another follows) and
  `Reports.dfy` (findings, final status, exit code, and what a reproduction reports).
- **The Python client** (`packages/pyefz`). `Session.dfy` is request correlation under every interleaving of threads,
  `Calls.dfy` what each call comes to, read off what the threads did, `Client.dfy` the client object and its write
  loop, `Json.dfy`, `Base64.dfy` and `Protocol.dfy` the JSON protocol, and `JsonReader.dfy` a reader after RFC 8259 that
  shows what the protocol asks of its JSON library can be had.
- **The C launcher** (`c_src/efz_vm_launcher.c`). `Launcher.dfy` has its log ring and its kill and reap loop.
- **The counter storages** (`bench/efz_hit_count_micro.erl`). `HitCount.dfy` has the five of them over one count map.

`Bytes.dfy`, `Sums.dfy` and `Wrappers.dfy` hold the integers of the wire formats, sums over maps, Option and Result.

SHA-256, the canonical JSON printer and the JSON parser of the supervisor are parameters (`Records.Library`); where
parsing has to undo printing, `Records.Faithful` says so. Clocks are readings handed to each step. What the operating
system decides (which file operation is the last one before a fault, what `select` brings, how reads and writes are
cut, when processes fork and die) is an argument of the operation concerned, and every theorem holds for all of them.

## How the supervisor is put together

`Supervisor.OnFrame` and its neighbours are functions from one controller state to the next. `Lifecycle.Campaign` is
any sequence of blocks the loop allows, in any order, through any number of generations. `Controller.RunCampaign` is
the source's own loops; its contract says that what it did are exactly the blocks `Rounds` gives for what it met, one
after another, where it stopped and why, and that everything it told the worker is on disk. The functions of
`Supervisor.dfy` are pinned from outside: each field of the controller, at every point of every campaign, is stated as
something that can be read off the blocks up to there (the last row of a kind, the last block that stopped the
generation, how many permissions were answered) in literal numbers and texts. `History.Run` splits the same steps at
every single file operation and puts kills, power cuts, recoveries and restarts between them. On the disk of
`Storage.dfy`, file contents, entries of a run folder and the run folder's own name become durable separately, each by
the fsync the source issues for it.

## What does not hold as one might wish

Each of these comes with an exact condition and with an input that gets there.

- The restart guard looks for a "ready" event among the last 256 events. A worker that got ready and then logged more
  than 254 results is taken for one that never did, and the campaign ends instead of restarting: exactly then
  (`Lifecycle.GuardIsAWindow`), in a campaign for every number of results (`Witness.GuardForgets`).
- The documentation promises that a worker killed by its launcher is never called a native crash. The controller does
  not look at `launcher_kill`, and the launcher also kills on a signal of its own or a failing poll. The promise is
  broken exactly when the worker ended by a signal while the controller had no reason to stop it
  (`Lifecycle.LauncherKillBlamed`, `Witness.LauncherKillCalledNative`).
- `load_run` reads a published run back exactly if its metadata and manifest are within the reader's size and nesting
  limits, which the writer does not check (`Records.ReadsBack`, `Lifecycle.AdmittedIsLegible`). With a target name
  longer than 65536 characters no admitted run does (`Lifecycle.LongTargetIsIllegible`). One such run keeps every later
  supervisor from getting through recovery (`History.UnreadableRunBlocksEveryRestart`), in a history in which it is
  permitted first (`Outages.PermittedAndUnreadable`). The supervisor takes a target of any length, and it is the
  supervisor whose promise this is; the worker shipped with it refuses more than 255 characters
  (`src/efz_cli.erl:127-128`), and for targets that short every visible run reads back (`Legibility.EveryRunReadsBack`).
- A power cut can take a visible run away exactly as long as the run's name is not durable, which recovery does not make
  it (`History.VanishesExactly`): even a run that recovery had given a durable verdict (`Outages.RecoveredAndGone`). A
  run that was authorized or permitted never goes (`History.OnlyUnauthorizedVanish`).
- The first result of a run is final once it is durable, and until the next power cut otherwise
  (`History.VerdictIsFinal`); until it is durable a power cut can take it back (`History.VerdictGoesExactly`), even
  after recovery has read it and a controller has come up on it, because recovery syncs nothing it finds. The run is
  then recorded as interrupted in its stead (`Outages.AnsweredAndForgotten`). A result that was acknowledged is always
  durable (`History.AckMeansDurable`).
- The client's reader takes a future out of the table before it parses the error body. If that body is malformed, the
  future is resolved by nobody, and a caller without a deadline waits forever
  (`Session.StrandedInRun`, `Session.MalformedErrorStrands`).
- A request cut by an error other than a timeout leaves part of a frame on the stream and no failure recorded. With no
  failure recorded, the stream is the whole frames sent exactly if no turn was cut like that
  (`ClientObject.StreamIntegrity`, `ClientObject.TornStream`).
- A batch request wraps its mutations two levels deeper than a single one, so it can be refused for nesting that
  `mutate` sends (`Protocol.BatchMayNotFit`, `Protocol.BatchRefusesWhatMutateAccepts`).
- A stream that ends right behind a frame's length is reported as a clean end (`Protocol.CutBehindTheLength`): behind
  whole frames, exactly nothing and a bare legal length are (`Protocol.EndsCleanlyExactly`).
- A text that holds the two halves of a surrogate pair as two characters is printed like the one character they make,
  and is read back as that: exactly then does a text not read back (`JsonReader.TextReadsBackExactly`).
- `load_run` vouches for the files the manifest names. A recipe that lies in the folder without being named is not
  looked at (`Records.LoadsExactly`), though it is charged to the byte budget.
- The counters of the Erlang benchmark are signed: at 2^63 hits an id disappears from the snapshot
  (`HitCount.DenseIsTally`, `HitCount.CounterDisappears`).

## Model

| member | source | states |
|---|---|---|
| Wire.Encode | priv/efz_external.py:39-41 | encoding succeeds exactly when every field fits its width, and has 17 bytes more than the payload |
| Wire.FrameLayout | priv/efz_external.py:39-41 | every integer of a frame stands in it most significant octet first, at its own place, and the payload behind them |
| Wire.SoundExactly | priv/efz_external.py:39-58 | the frames of the theorems below are exactly those that can be encoded and that the decoder lets through |
| Wire.FieldsOfRow | priv/efz_external.py:366-368 | unpacking a row gives back the very fields that were packed |
| Wire.Decoder.Feed | priv/efz_external.py:49-71 | the loop over the buffer yields what the reference parse of old buffer plus data says, error or rows and leftover, and `since` is when the present unfinished frame was first seen |
| Wire.FeedErrors | priv/efz_external.py:51-65 | each decoder error is raised exactly when the bytes, read as frames, hold more than 64 of them or an illegal length after at most 64, or the chunk is over 4096 |
| Wire.IllegalExactly | priv/efz_external.py:55-58 | a length is illegal exactly if its four octets, most significant first, denote less than 13 or more than 1114171 |
| Wire.ErrorLeaves | priv/efz_external.py:49-65 | what each error leaves in the buffer |
| Wire.SplitSound | priv/efz_external.py:55-63 | the reference parse cuts the stream into frames without losing or reordering a byte |
| Wire.SplitComplete | priv/efz_external.py:55-63 | and it finds every frame that was there, up to the first illegal length |
| Wire.ChunksAsWhole | priv/efz_external.py:44-71 | feeding chunk by chunk without an error gives the rows and leftover of the whole stream at once |
| Wire.ChunkingIrrelevant | priv/efz_external.py:44-71 | any two error-free chunkings of the same bytes give equal rows and leftovers |
| Wire.SmallChunksKeepRate | priv/efz_external.py:64-65 | chunks of at most 1088 bytes never trip the 64-row limit |
| Wire.RateBoundIsTight | priv/efz_external.py:64-65 | a chunk of 1089 bytes can |
| Wire.WireRoundTrip | priv/efz_external.py:39-71 | for every list of sound frames, decoding the concatenated encodings in any error-free chunking returns exactly those fields and nothing left over |
| Wire.SmallChunksDrain | priv/efz_external.py:44-71 | chunks of at most 1088 bytes of a stream of whole frames are never refused |
| Messages.HelloExactly | priv/efz_external.py:371-384 | a handshake passes exactly if it is the encoding of the launched build, worker configuration, pid and versions |
| Messages.RecipeExactly | priv/efz_external.py:401-404 | a recipe passes exactly if it is the sealed envelope of an uncompressed external term |
| Messages.PrepareExactly | priv/efz_external.py:392-406 | a PREPARE passes exactly if it is the encoding of some phase, input within the limit, that input's digest and a sound recipe where its status says so |
| Messages.LargestPrepare | priv/efz_external.py:25-26 | every admissible PREPARE fits a frame, and the longest is exactly MAX_FRAME long |
| Records.ReadsBack | priv/efz_external.py:120-135 | a published run reads back as the metadata and bytes it was prepared with exactly if it is within the reader's limits (a damaged one: `Records.DamageIsRefused`) |
| Records.LoadsExactly | priv/efz_external.py:120-135 | `load_run` returns this metadata and input exactly if a readable manifest names input, metadata and perhaps a recipe, every file it names is there within its limit and with the size and hash it says, and the metadata is of version 1 and of this input's hash |
| Records.DamageIsRefused | priv/efz_external.py:127-131 | a published run whose input, metadata or recipe holds bytes of another hash never loads, whatever else is in its folder |
| Records.ResultReadsBack | priv/efz_external.py:138-143 | `validated_result` returns what `finish` was given exactly within its limits |
| Records.ValidatesExactly | priv/efz_external.py:138-143 | `validated_result` returns this body exactly if the file is within the limits and is a record of the body and of a checksum that is its hash, and the body has a textual classification |
| Records.HexInjective | priv/efz_external.py:35-36 | equal hex digests are digests of equal bytes of hash |
| Records.HexReads | priv/efz_external.py:35-36 | and the digits of each byte stand at its place, lower-case, the higher first |
| Records.OpenersCount | priv/efz_external.py:109-117 | the reader's nesting limit counts every opening brace and bracket, in text or not |
| Storage.UnsyncedMayChange | priv/efz_external.py:94-98 | what a write without its fsync risks: after a power loss the file may read back as anything, even under a durable name |
| Storage.UnsavedMayGo | priv/efz_external.py:80-106 | and what a name without the fsync of its folder risks: the file may be gone |
| Scripts.StagingIsInvisible | priv/efz_external.py:184-192 | nothing done under the hidden name shows in the visible runs |
| Scripts.StagingCompletes | priv/efz_external.py:184-192 | staging that got through has built the complete run, all of it durable |
| Scripts.PrepareDone | priv/efz_external.py:179-195 | all of `prepare` publishes the whole run under a name that was free, durably, and touches no other |
| Scripts.PrepareExactly | priv/efz_external.py:179-195 | nothing of itself stands in the way of `prepare` exactly if the run's and the hidden name are free, and nothing is then left under the hidden one |
| Scripts.AtomicExactly | priv/efz_external.py:101-106 | nor in that of `atomic`, exactly if the run is there and the temporary name is free in it |
| Scripts.AtomicShows | priv/efz_external.py:101-106 | at every step of `atomic` the final name shows nothing or the whole file, and no other name changes |
| Scripts.AtomicKeepsGood | priv/efz_external.py:101-106 | at no point of `atomic` is a published run anything but complete |
| Scripts.LossKeepsGood | priv/efz_external.py:94-106 | a complete run survives a power cut complete, with every durable file unchanged |
| JournalObject.Journal.Atomic | priv/efz_external.py:101-106 | carries out a prefix of write, fsync, replace, fsync of the folder, all of it exactly if it reports success |
| JournalObject.Journal.Prepare | priv/efz_external.py:179-195 | charges the byte budget, refuses exactly when it is exceeded (and ever after) touching nothing, and else carries out a prefix of the publication, all of it exactly if it succeeds |
| JournalObject.Journal.Authorize | priv/efz_external.py:197-199 | carries out a prefix of the authorization, all of it exactly if it succeeds |
| JournalObject.PermissionShows | priv/efz_external.py:197-199 | an authorization that went through leaves the words of the permission durable in the run and moves nothing else |
| JournalObject.Journal.Finish | priv/efz_external.py:201-210 | write-once: a standing verdict is confirmed or the call fails, and nothing is written; otherwise the sealed result is written atomically |
| JournalObject.Journal.RecoverOne | priv/efz_external.py:165-175 | one run: must read back, is charged its weight, and gets its interrupted verdict only if it had none; it is refused exactly if it does not read back, its verdict is not sound, or it has none and does not name itself, and otherwise fails only if the disk gives out or a temporary name is taken |
| JournalObject.Journal.Recover | priv/efz_external.py:147-175 | on success every visible run read back and has a verdict, old verdicts are untouched, the count is the sum of all weights and `recovered` the number of unfinished runs; on failure every run is untouched or some way into its own verdict, and there were more than 100000 entries, a run that is refused, or a disk that gave out |
| Records.WeightIsCost | priv/efz_external.py:168-180 | what a scan charges for a run is what `prepare` charged for it |
| Records.InterruptedTells | priv/efz_external.py:169-172 | the verdict recovery gives says interrupted, unknown or prepared by the authorization, claims no proof, names campaign and run as the metadata does, and says nothing else |
| Lifecycle.AfterKeeps | priv/efz_external.py:366-589 | every block of the loop keeps the invariant: conservation of runs, budgets, soundness of stop reasons, of the accepted word and of the log |
| Lifecycle.CampaignInv | priv/efz_external.py:472-619 | so it holds at every point of every campaign |
| Lifecycle.Conservation | priv/efz_external.py:407-455 | at every point of every campaign run = answered + findings + 1 if one is pending, pending exactly in EXECUTING, findings at most the generations, generations at most the restart budget plus one, runs and mutations within budget, mutations plus verifications at most runs, and spent plus granted mutations are the whole budget (what is counted: `Bookkeeping.CountersExactly`) |
| Lifecycle.FrameSteps | priv/efz_external.py:366-462 | every accepted frame is one of seven letters, and what it does to state, pending run, log and stop reason, with no counter moved but by an admission (by how much: `WorkerRows.RowExactly`) |
| Lifecycle.AcceptedIsPrefix | priv/efz_external.py:366-462 | what a generation has accepted is always a prefix of a word of 1 (5, or 2 (3 4-clean)* (5, or 3-refused, or 3 4-dirty 5)) |
| Lifecycle.PermissionOnlyWhenClean | priv/efz_external.py:407-434 | permission is asked for only with no stop reason, nothing pending and behind clean runs alone, within the budget and under the next id |
| Lifecycle.RejectionChangesNothing | priv/efz_external.py:554-562 | a rejected row leaves counters, state, pending run and accepted word alone, asks nothing of the journal, is not answered, and no later row of the generation is heard |
| Lifecycle.StopStays | priv/efz_external.py:499-562 | over any stretch of a generation a stop reason, once set, never returns to none |
| Lifecycle.NoPermissionAfter | priv/efz_external.py:407-460 | after a stop reason, a dirty result, a refusal or a finish message no step of the generation asks for permission again |
| Lifecycle.IdsAscend | priv/efz_external.py:411-434 | of any two permissions of a campaign, in whatever generations, the later one carries the larger id |
| Lifecycle.BlamesAreSound | priv/efz_external.py:573-588 | wherever in a campaign a worker ends with a run in flight, the run is blamed only on a native crash, unexpected exit, hard timeout, campaign deadline, parent death or protocol failure; on a native crash exactly if there was a signal and no stop reason, and then no stop byte of ours; and the run becomes a finding (which of the six exactly when: `Stopping.VerdictExactly`) |
| Lifecycle.LauncherKillBlamed | docs/p1-01-external-supervisor.md:185-186 | of all verdicts, exactly those on a worker that the launcher killed, that ended by a signal and for which the controller had no stop reason break the promise that a launcher kill is never called a native crash |
| Lifecycle.GuardIsAWindow | priv/efz_external.py:334-336 | the restart guard tells whether the generation got ready exactly if at most 254 events followed "ready" |
| Lifecycle.Requests | priv/efz_external.py:411-455 | a block issues only a fresh key, which becomes the pending one, and settles only the pending key |
| Lifecycle.DigestIsOfInput | priv/efz_external.py:405-434 | the permitted digest is the hash of the very bytes handed to the journal |
| Lifecycle.AdmittedIsLegible | priv/efz_external.py:415-425 | an admitted run reads back exactly if its packed metadata and manifest are within size and nesting limits; the reader's other checks it always passes |
| Lifecycle.LongTargetIsIllegible | priv/efz_external.py:415-425 | with a target name longer than the reader's limit no run ever admitted reads back |
| Lifecycle.DecidesExactly | priv/efz_external.py:602-618 | another worker follows a generation exactly if the worker got ready within the window, was not stopped for good, and did not finish or only because it was dirty (in a reproduction: if runs are due), and the budget lasts; otherwise the campaign's status is what stopped the worker, how it finished, or that the budget is spent |
| WorkerRows.FrameExactly | priv/efz_external.py:366-462 | a row is taken exactly if it is of this generation and is, by its bytes, the one kind of message that the state allows |
| WorkerRows.RowExactly | priv/efz_external.py:366-462 | for every row: if the peer is the launched worker and nothing but a dirty run stopped it, a row that fits is answered with exactly the right kind, run and digest and writes exactly the state, deadline, counters, log, quarantine, run in flight and result its bytes call for; one that does not fit is a protocol failure; otherwise it is a failure of the peer or skipped |
| Causes.BlockSteps | priv/efz_external.py:498-588 | for every block what it does to deadline, stop byte, stop reason, evidence, connection, state and stream, in terms of the block and the state before it |
| Stopping.TickExactly | priv/efz_external.py:500-509 | whatever precedes it, a look at the clock stops the generation for a reason exactly if it had none and the clock is past the end of the campaign, or else past the deadline of the last message or launch, or else more than a second past the first look at an unfinished frame; and in which words |
| Stopping.StopByteExactly | priv/efz_external.py:506-509 | and it sends the stop byte exactly if there is then a reason, none was sent at a look at the clock before, and half a second has passed since a dirty result |
| Stopping.HungWorkerIsStopped | priv/efz_external.py:426-509 | a run permitted at time t and not answered is stopped as `worker_hard_timeout`, by one stop byte, at the first look at the clock from t + timeout + 1 s + graces on, and at none before |
| Stopping.StalledFrameStops | priv/efz_external.py:505-506 | a frame left unfinished is stopped as a protocol failure at the first look more than a second after its first bytes, and not before |
| Stopping.StopExactly | priv/efz_external.py:500-562 | at every point of every campaign the stop reason is that of the last block that caused one in this generation, and there is none exactly if no block did |
| Stopping.LeaveExactly | priv/efz_external.py:563-572 | a worker can be left exactly when the launcher's last report confirms that nothing of it is left, every decoded frame is handled, and its stream was never opened or has been read to the end |
| Stopping.EveryByteIsHeard | priv/efz_external.py:545-567 | as long as nothing misbehaves, the frames handled, those waiting and the unfinished rest are exactly the bytes read in this generation |
| Stopping.VerdictExactly | priv/efz_external.py:573-580 | the whole verdict on a run in flight when its worker ended, in the words it is recorded in: what the last block to stop the generation stopped it for, or else signal or exit, with the wait status the launcher reported last |
| Bookkeeping.CountersExactly | priv/efz_external.py:411-414 | the counters of runs, mutations and verifications are, at every point, the numbers of rows so far answered with a permission: all, those whose first byte is 2, those whose first byte is 3 |
| Bookkeeping.RefusalExactly | priv/efz_external.py:407-410 | a sound PREPARE is refused exactly if the permissions so far reach the supervised runs, or its first byte is 2 and those of mutations reach theirs; otherwise it is permitted |
| Bookkeeping.LogExactly | priv/efz_external.py:334-336 | the log is the last 256 of the events that the blocks so far call for, each with its generation |
| Bookkeeping.LiveExactly | priv/efz_external.py:472-589 | a worker is there exactly if one was launched and has not been left since |
| Bookkeeping.QuarantineExactly | priv/efz_external.py:452-587 | in quarantine are exactly the inputs whose run was lost with its worker or left it dirty |
| Bookkeeping.JobExactly | priv/efz_external.py:411-425 | at every permission the journal is handed the very input and recipe of the PREPARE, under metadata that say, field by field, which run, generation, phase, worker, build and limits it is of |
| Restarts.DoneExactly | priv/efz_external.py:456-460 | the finish code at any point is that of the finish message taken in this generation |
| Restarts.ReadyExactly | priv/efz_external.py:387-391 | and how far back in the log its "ready" stands |
| Restarts.RestartExactly | priv/efz_external.py:600-619 | over whole campaigns, of what was read, reported and timed: behind which generations another worker is started |
| Restarts.CompletionEnds | priv/efz_external.py:609-610 | outside a reproduction a worker that finished with code 0 and was not stopped is followed by no other, and the campaign is completed |
| Reports.FindingsExactly | priv/efz_external.py:581 | the findings are exactly the runs lost with their worker, in order, each with a verdict |
| Reports.StatusExactly | priv/efz_external.py:589-621 | the final status in the words of the report: which of them exactly when |
| Reports.ExitExactly | priv/efz_external.py:646 | outside a reproduction the supervisor exits with 0 exactly if the last worker was stopped because a budget was used up, or finished with code 0 and was not stopped |
| Reports.ReproductionExactly | priv/efz_external.py:627-643 | how many runs of a reproduction count as observed are those lost to the same end as the finding (again hung, or unstopped with the same signal, or with none and the same exit code); if none did, it is inconclusive exactly if not as many runs as requested were permitted or one was lost to another stop than its deadline |
| Legibility.OrdinaryIsLegible | priv/efz_external.py:415-425 | with a target of at most 255 characters, the other texts as hashes and options make them, and a printer that adds no more than JSON does, every run admitted reads back |
| Legibility.EveryRunReadsBack | priv/efz_external.py:120-135 | so over any history of such configurations every visible run, permitted or not, reads back as the metadata and input it was prepared with |
| Witness.GuardForgets | priv/efz_external.py:603-618 | for every n a campaign in which a ready worker answers n runs cleanly and dies; it is restarted exactly if n is at most 254 |
| Witness.LauncherKillCalledNative | priv/efz_external.py:575-580 | a campaign in which the launcher kills a worker of its own accord and the run's verdict is a native crash |
| Rounds.CampaignReplays | priv/efz_external.py:472-619 | the blocks of a campaign determine it: every later point is the earlier one with the blocks between carried out |
| Rounds.MeetsExactly | priv/efz_external.py:510-552 | which of the round's own errors a round raises, and that one sent its stop byte more than five seconds ago comes first |
| Rounds.WorkerComesLast | priv/efz_external.py:499-562 | every round begins with the deadlines, and all that parent, listener and launcher bring comes before what the worker sent |
| Rounds.RoundExactly | priv/efz_external.py:499-554 | a round carries out exactly what it meets, once: a look at the clock, the parent's death, a connection while there is none, what was read of a worker connected before; and every line of the launcher, in order |
| Rounds.RowsDrain | priv/efz_external.py:555-562 | every waiting frame is handled, or dropped with the one that is rejected, each under its own clock |
| Rounds.RoundsExactly | priv/efz_external.py:498-568 | rounds are carried out one after another up to the first behind which the end is reported and the stream read to its end, and nothing else is |
| Rounds.SpanExactly | priv/efz_external.py:472-589 | a generation is launched first and left last, and neither in between |
| ControllerObject.Controller.Log | priv/efz_external.py:334-336 | appends the event and keeps the last 256 |
| ControllerObject.Controller.HandleHello | priv/efz_external.py:371-386 | does and answers what the state machine says of a handshake |
| ControllerObject.Controller.HandleReady | priv/efz_external.py:387-391 | does and answers what the state machine says of READY |
| ControllerObject.Controller.HandlePrepare | priv/efz_external.py:392-434 | follows the state machine, which counts and refuses as `Bookkeeping.CountersExactly` and `Bookkeeping.RefusalExactly` say, and on success the run is durably published and authorized before the permission is sent; it fails exactly if the byte budget, a taken name or the disk keeps the journal from that, and then sends nothing |
| ControllerObject.Controller.HandleResult | priv/efz_external.py:435-455 | follows the state machine, and on success the verdict is durable before the acknowledgement is sent; it fails exactly if the disk keeps the journal from writing it |
| ControllerObject.Controller.HandleDone | priv/efz_external.py:456-460 | follows the state machine |
| ControllerObject.Controller.Frame | priv/efz_external.py:366-462 | a rejected frame changes neither controller nor disk and sends nothing; an accepted one is exactly the state machine's step, with its request obeyed on disk and its one reply sent |
| ControllerObject.Controller.CheckDeadlines | priv/efz_external.py:500-509 | the deadlines in the source's order and the stop byte they lead to, which are those of `Stopping.TickExactly` and `Stopping.StopByteExactly` |
| ControllerObject.Controller.Receive | priv/efz_external.py:553-562 | the decoder object and the state machine stay in step, rows or error |
| ControllerObject.Controller.HandleRow | priv/efz_external.py:555-562 | peer check, then the frame, then the protocol error, as the state machine says, with its request obeyed on disk; it fails exactly if the journal cannot do what is asked of it |
| ControllerObject.Controller.EndGeneration | priv/efz_external.py:572-588 | a run in flight gets a durable verdict, in the words of `Stopping.VerdictExactly`, and becomes a finding, or the call fails, exactly if the journal cannot write it; otherwise nothing is settled |
| ControllerObject.Controller.NextRow | priv/efz_external.py:555-562 | each row is a step of a campaign, and keeps every permission sent backed on disk and every acknowledgement durable |
| ControllerObject.Controller.Look | priv/efz_external.py:499-552 | the first half of a round, in order, and exactly which of the three errors it ends in |
| ControllerObject.Controller.HearFrames | priv/efz_external.py:545-562 | the bytes of one read and every frame they complete, each handled in turn; it fails only at a frame that asks something of the journal |
| ControllerObject.FinishLosesNothing | priv/efz_external.py:201-210 | a verdict that fails half way takes nothing back that the worker was told |
| ControllerObject.AuthorizeLosesNothing | priv/efz_external.py:179-199 | neither does a publication or an authorization that fails half way |
| ControllerObject.Controller.OneRound | priv/efz_external.py:499-568 | on success exactly the blocks of the round were run, in the source's order: deadlines, parent, peer, launcher's lines, worker's bytes, every frame up to the first rejected one; true exactly if the launcher has reported the end and the stream was never opened or has been read to its end; and each way to fail only where the source raises it |
| ControllerObject.Controller.EventLoop | priv/efz_external.py:498-568 | round after round until the generation is over, the worker's stream read to its end: exactly the blocks of those rounds, and a failure only in a round that is reached |
| ControllerObject.Controller.GenerationRun | priv/efz_external.py:472-589 | on success the blocks run are launch, all rounds until the generation was over, and the verdict, and the status is what the source returns; it is cut only if all rounds were handled and it was not over, and each other error comes from the place that raises it |
| ControllerObject.Controller.AfterGeneration | priv/efz_external.py:604-618 | starts another worker exactly if there is more to do (the worker got ready within the window, was not stopped for good and did not finish, or only because it was dirty; in a reproduction, runs are due) and the budget lasts; otherwise it ends with what stopped the worker, how it finished, or that the budget is spent |
| ControllerObject.Controller.RunCampaign | priv/efz_external.py:599-619 | on success exactly the blocks of the generations met, as many as it says, with the status that the end of the last calls for: what stopped it, how it finished, or restarts spent, and no more to do; at most restart budget plus one generations on every way out, the exhausted status only after exactly that many; it is cut only if there was nothing more to meet, and each other error is one the next generation fails with; and whatever the way out, every permission ever sent is backed by a durable authorized run of that digest, and for every acknowledgement the durable verdict of its run is a result the campaign had asked to be recorded for it |
| ControllerObject.RowCovers | priv/efz_external.py:411-455 | whatever a row makes the controller say, the disk backs it, an acknowledgement by the very result asked for, and keeps backing all it said before |
| ControllerObject.SettleConcludes | priv/efz_external.py:201-210 | a verdict makes this very result durable, and leaves the run complete and its authorization durable |
| History.StepKeeps | priv/efz_external.py:120-210 | every step of controller, journal, recovery, kill or power cut keeps the invariant of the world |
| History.HistorySound | priv/efz_external.py:120-210 | so it holds at every point of every history |
| History.WriteAhead | priv/efz_external.py:392-434 | every permission ever sent is, then and ever after, of a durably published and authorized run whose bytes have the permitted digest, and which reads back exactly within the reader's limits |
| History.PermittedOnce | priv/efz_external.py:411-434 | no run is permitted twice, and each controller's permissions carry ever larger ids |
| History.AckMeansDurable | priv/efz_external.py:445-450 | the very result that was acknowledged is the durable verdict of its run, then and ever after |
| History.VisibleIsComplete | priv/efz_external.py:179-195 | every visible run holds exactly the artifacts it was prepared with, all durable |
| History.OnlyUnauthorizedVanish | priv/efz_external.py:179-199 | a run vanishes only in a power cut, before its name was durable, never authorized and never permitted |
| History.VanishesExactly | priv/efz_external.py:183-195 | some next step can take a visible run away exactly as long as its name is not durable |
| History.VerdictStays | priv/efz_external.py:201-210 | no step rewrites a visible verdict, and a power cut does not take back a durable one |
| History.VerdictIsFinal | priv/efz_external.py:201-210 | over any history a durable verdict is the same at every later point, and any visible one is up to the next power cut |
| History.VerdictGoesExactly | priv/efz_external.py:101-106 | at any point of any history a visible verdict can be taken back by the next step if and only if it is not durable under a durable name |
| History.RecoveryLeavesNone | priv/efz_external.py:156-175 | a completed recovery leaves no visible run without a verdict |
| History.OnlyOneWithout | priv/efz_external.py:424-450 | while a controller is up at most one visible run is without a verdict |
| History.RecoveryNeverAccuses | priv/efz_external.py:169-172 | a verdict that appears during recovery is `interrupted_unknown` exactly where permission was recorded and `interrupted_prepared` where not |
| History.SecondRecoveryIsIdle | priv/efz_external.py:147-175 | once every run has a verdict, recovering again, however often it is killed, changes nothing |
| History.UnreadableRunBlocksEveryRestart | priv/efz_external.py:109-135 | a visible run outside the reader's limits keeps every later controller from coming up, through power cuts too once its name is durable |
| History.ScanIsTotal | priv/efz_external.py:156-180 | the bytes a scan of the disk counts are those that were charged for the visible runs |
| History.RecountNeverExceeds | priv/efz_external.py:168-182 | what the scan of a restart counts on the disk that is left is never more than what the controller that went down had counted |
| Outages.PermittedFirst | priv/efz_external.py:179-199 | a history, operation by operation, in which a run is published, authorized and permitted and the controller is then killed |
| Outages.PermittedAndUnreadable | priv/efz_external.py:109-135 | with too long a target name, a history in which a run is permitted and does not read back, and in no continuation does a controller come up again |
| Outages.RecoveredAndGone | priv/efz_external.py:156-175 | a history in which recovery gives a run its verdict, durable in the run's folder, and a power cut then takes both away |
| Outages.AnsweredAndForgotten | priv/efz_external.py:172-175 | a history in which the worker's own result, renamed into place but not yet durable, is read by a recovery, a controller comes up, a power cut takes the result, and the run ends up durably recorded as interrupted |
| Session.RunInv | packages/pyefz/src/pyefz/client.py:214-297 | over every interleaving at most 64 requests are pending and a recorded failure means an empty table |
| Session.ResolvedOnce | packages/pyefz/src/pyefz/client.py:214-245 | a step resolves at most one unresolved future: the reader the one of the response's own id, a sweep with the recorded failure |
| Session.ResolvedForever | packages/pyefz/src/pyefz/client.py:214-245 | over any run a resolved future keeps what it was resolved with |
| Session.AnsweredByItsOwn | packages/pyefz/src/pyefz/client.py:226-245 | an answered future was answered by a response that was read earlier and carried its own id |
| Session.IdsAreFresh | packages/pyefz/src/pyefz/client.py:271-281 | exactly when a call is admitted, and that it then gets the next id and a new future and disturbs no other |
| Session.IdsDiffer | packages/pyefz/src/pyefz/client.py:278-281 | no two calls of a run are ever given the same id |
| Session.LateResponsesAreIgnored | packages/pyefz/src/pyefz/client.py:235-241 | over any run, once a request has left the table no response for it changes anything ever after |
| Session.StrandedInRun | packages/pyefz/src/pyefz/client.py:236-245 | at any point of any run a caller is stranded exactly if the reader gave up its future over a malformed error body at some earlier step and the caller has not left |
| Session.LostExactly | packages/pyefz/src/pyefz/errors.py:57-63 | a future is lost exactly by a malformed error body for its id, at most one in a client's life |
| Session.NobodyStranded | packages/pyefz/src/pyefz/client.py:214-249 | as long as every error body is well formed no caller is ever stranded |
| Session.MalformedErrorStrands | packages/pyefz/src/pyefz/client.py:239-249 | a run of four steps that strands a caller |
| Session.StrandedForever | packages/pyefz/src/pyefz/client.py:251-262 | a stranded caller stays so until it leaves by itself |
| Session.AllAnsweredInTheEnd | packages/pyefz/src/pyefz/client.py:214-249 | when reader and sweeps are through, every request is resolved, given up or the lost one |
| Calls.ClosedExactly | packages/pyefz/src/pyefz/client.py:271-273 | over every interleaving the client is closing, or closed, from the step on that says so |
| Calls.FailureExactly | packages/pyefz/src/pyefz/client.py:214-222 | the recorded failure is that of the first thread to fail the client, and there is one exactly if one did |
| Calls.ReaderExactly | packages/pyefz/src/pyefz/client.py:224-249 | the reader is where its last step left it: holding the answer to a request that was pending, reading on, or raising the one error that step calls for, in its own words |
| Calls.CallExactly | packages/pyefz/src/pyefz/client.py:271-281 | a call gets the number behind those let in before it exactly if nobody closed or failed the client and fewer than 64 are pending, and otherwise the error that says why, closed before failed before too many |
| Calls.PendingExactly | packages/pyefz/src/pyefz/client.py:214-297 | at every point the table holds exactly the calls that were let in and that no leaving, no answer read and no failure of the client has ended since |
| Calls.GoneExactly | packages/pyefz/src/pyefz/client.py:295-297 | a caller is gone exactly if it has left |
| Calls.AnsweredExactly | packages/pyefz/src/pyefz/client.py:226-245 | a call is answered exactly if the reader read that very answer, under the call's number and while it was pending, and handed it over; one with a malformed error body never is |
| Calls.FailedExactly | packages/pyefz/src/pyefz/client.py:214-222 | a call fails, and with this error, exactly if the first thread to fail the client did so with it while the call was pending, and has come to its future |
| ClientObject.Client.BeginCall | packages/pyefz/src/pyefz/client.py:271-281 | the lock region is the admission of the session model |
| ClientObject.Client.Forget | packages/pyefz/src/pyefz/client.py:295-297 | removes this id and nothing else |
| ClientObject.Client.FailPending | packages/pyefz/src/pyefz/client.py:214-222 | the first failure is kept, the table emptied, exactly its futures failed |
| ClientObject.Client.Respond | packages/pyefz/src/pyefz/client.py:226-245 | one round of the reader is Receive and Deliver of the session model, or the exception it raises |
| ClientObject.Client.ReadResponses | packages/pyefz/src/pyefz/client.py:224-249 | the reader's loop handles frames in order up to the first exception, and then fails exactly what is still pending |
| ClientObject.Client.WriteMessage | packages/pyefz/src/pyefz/client.py:310-337 | a prefix of the message goes out, all of it exactly on success, and a timeout after any write leaves a failure and an empty table |
| ClientObject.Client.WriteLoop | packages/pyefz/src/pyefz/client.py:318-331 | the loop writes what its events allow, whatever the partial writes |
| ClientObject.StreamIntegrity | packages/pyefz/src/pyefz/client.py:310-337 | over any turns with the write lock, whenever it is free and no failure is recorded, the bytes sent are the whole frames in lock order if and only if no turn was cut, after some but not all of its bytes, by an error other than a timeout |
| ClientObject.TornExactly | packages/pyefz/src/pyefz/client.py:310-337 | the stream is torn exactly if the events of some turn cut it like that |
| ClientObject.TearsExactly | packages/pyefz/src/pyefz/client.py:318-337 | what the write loop does to one turn, said of the turn's events alone |
| ClientObject.TornStream | packages/pyefz/src/pyefz/client.py:283-290 | two turns after which the stream is no concatenation of frames and no failure says so |
| JsonText.CheckDepth | packages/pyefz/src/pyefz/protocol.py:35-58 | the scanning loop objects exactly as the step-by-step scanner does |
| JsonText.QuotedScans | packages/pyefz/src/pyefz/protocol.py:39-47 | a printed string, whatever brackets, quotes and escapes it holds, leaves the scanner where it was |
| JsonText.ScannerIsExact | packages/pyefz/src/pyefz/protocol.py:35-58 | on the printed form of any value the scanner accepts exactly if it nests at most 24 deep with at most 32768 containers |
| JsonReader.ReadsBack | packages/pyefz/src/pyefz/protocol.py:70-93 | a reader of JSON reads back every value that was printed, if its numbers are written with something and its texts hold no surrogate pair as two characters |
| JsonReader.TextReadsBackExactly | packages/pyefz/src/pyefz/protocol.py:70-93 | a text reads back exactly if it holds no surrogate pair as two characters |
| Base64.DecodeEncode | packages/pyefz/src/pyefz/protocol.py:14-17 | decoding undoes encoding |
| Base64.AsInTheStandard | packages/pyefz/src/pyefz/protocol.py:14-17 | the alphabet and the padding are those of section 4 of RFC 4648 on its own examples |
| Base64.AcceptsExactly | packages/pyefz/src/pyefz/protocol.py:20-32 | `decode_bytes` accepts exactly the encodings of byte strings within the limit and inverts `encode_bytes` on them |
| Base64.PrecheckIsSafe | packages/pyefz/src/pyefz/protocol.py:24-25 | the length check rejects no encoding within the limit and admits at most limit + 2 decoded bytes |
| Base64.PrecheckIsTight | packages/pyefz/src/pyefz/protocol.py:24-31 | limit + 2 bytes do get that far |
| Protocol.FrameExactly | packages/pyefz/src/pyefz/protocol.py:81-93 | a value can be sent exactly if its printed form is within 8 MiB and it is within both nesting limits |
| Protocol.Source.ReadExact | packages/pyefz/src/pyefz/protocol.py:96-105 | whatever the short reads, exactly size bytes, or end of file with nothing read, or truncated |
| Protocol.Source.ReadFrame | packages/pyefz/src/pyefz/protocol.py:108-112 | reads the frame the stream begins with and stops behind it |
| Protocol.FrameRoundTrip | packages/pyefz/src/pyefz/protocol.py:81-112 | whatever can be sent is read back as the same value |
| Protocol.StreamRoundTrip | packages/pyefz/src/pyefz/protocol.py:81-112 | a stream of frames reads back in order and then ends cleanly |
| Protocol.CutBehindTheLength | packages/pyefz/src/pyefz/protocol.py:96-112 | a frame cut right behind its length reads as end of file, cut later as truncated |
| Protocol.EndsCleanlyExactly | packages/pyefz/src/pyefz/protocol.py:96-112 | of all streams that begin with whole frames and go on with none, those reported as a clean end are exactly the ones with nothing, or just a legal length, behind them |
| Protocol.SentIsRead | packages/pyefz/src/pyefz/protocol.py:81-112 | with that reader: whatever can be sent is read as the same value, whatever follows it |
| Protocol.JsonValueExactly | packages/pyefz/src/pyefz/client.py:23-38 | `_json_value` accepts exactly the supported values within 20 levels, and what it returns nests at most 21 |
| Protocol.JsonValueStands | packages/pyefz/src/pyefz/client.py:23-38 | what `_json_value` returns stands for what it was given: bytes for an envelope that decodes to them, a path for its text, containers part by part and in order, scalars for themselves |
| Protocol.SingleRequestsFit | packages/pyefz/src/pyefz/client.py:339-347 | start and mutate requests of accepted values nest at most 23 |
| Protocol.BatchMayNotFit | packages/pyefz/src/pyefz/client.py:401-406 | a batch of accepted values reaches at most 25, and is within the limit exactly if no provider or request uses all 21 levels |
| Protocol.MutationArrives | packages/pyefz/src/pyefz/client.py:56-66 | a mutation that gets sent is read at the other end as version 1, this id and operation, and arguments whose input envelope decodes to the input and whose provider and request stand for the caller's |
| Protocol.BatchArrives | packages/pyefz/src/pyefz/client.py:401-406 | and a batch as its mutations, one for one and in order |
| Protocol.BatchRefusesWhatMutateAccepts | packages/pyefz/src/pyefz/client.py:401-406 | a provider for which, with a request of nothing but its seed, `frame` takes the mutation and refuses the batch of one for its nesting |
| Launcher.LogTail.Take | c_src/efz_vm_launcher.c:43-45 | after any reads the ring holds the latest bytes and `total` counts them all |
| Launcher.LogTail.Printed | c_src/efz_vm_launcher.c:66-67 | what is printed are the last min(total, 4096) bytes read, in order |
| Launcher.HappensExactly | c_src/efz_vm_launcher.c:51-63 | process by process what a fork, a death, a signal or a reaping that the launcher does not control does: who appears, who goes, whose child everybody is, and who will run again |
| Launcher.ChildStays | c_src/efz_vm_launcher.c:55-60 | whatever else happens, a child of the launcher keeps its pid until the launcher reaps it |
| Launcher.SignalsOnlyItsChild | c_src/efz_vm_launcher.c:42-60 | a signal to a listed pid reaches that very child and nobody else |
| Launcher.AllFewer | c_src/efz_vm_launcher.c:51-63 | as long as nobody forks, whatever else happens leaves no process new, back from the dead or reprieved |
| Launcher.PassFalls | c_src/efz_vm_launcher.c:52-63 | a pass of the loop without forks, before which the doomed have died, leaves strictly less |
| Launcher.Reaper.Wait | c_src/efz_vm_launcher.c:53-55 | no child is reported exactly if no descendant is left |
| Launcher.Reaper.Kill | c_src/efz_vm_launcher.c:60 | whom the signal reaches, that it will not run again, and whether it is anyone but the listed child |
| Launcher.Reaper.KillListed | c_src/efz_vm_launcher.c:55-61 | every listed child is signalled, and nobody else, whatever happens before each signal: of at most 4096 children none runs afterwards, forks or not |
| Launcher.Reaper.CleanUp | c_src/efz_vm_launcher.c:51-63 | with anything going on around it, confirmed means no descendant is left, and no signal went astray; if nobody forks and the doomed die before each wait, more passes than three for each process end in confirmed |
| HitCount.RoundsTally | bench/efz_hit_count_micro.erl:43-49 | n rounds over distinct ids leave exactly n on each |
| HitCount.InterleavingCounts | bench/efz_hit_count_micro.erl:87-97 | however several writers interleave, the hits are those of all of them together |
| HitCount.OrderDoesNotMatter | bench/efz_hit_count_micro.erl:87-97 | so every interleaving ends in the same counts |
| HitCount.DenseIsTally | bench/efz_hit_count_micro.erl:76-77 | the dense snapshot is the count map exactly if no count has outgrown its slot, 2^64 for atomics and 2^63 for counters |
| HitCount.CounterDisappears | bench/efz_hit_count_micro.erl:63-77 | an id hit over and over is in the snapshot of the counters up to its 2^63rd hit and gone at it |
| HitCount.EtsSet.Hit | bench/efz_hit_count_micro.erl:68 | records the hit |
| HitCount.EtsSet.Snapshot | bench/efz_hit_count_micro.erl:74 | the projection of the count map to one |
| HitCount.EtsCounter.Hit | bench/efz_hit_count_micro.erl:69 | the table is the count map after every hit |
| HitCount.EtsCounter.Snapshot | bench/efz_hit_count_micro.erl:75 | the count map |
| HitCount.Dense.constructor | bench/efz_hit_count_micro.erl:59-67 | one zeroed slot for each prepared id |
| HitCount.Dense.Hit | bench/efz_hit_count_micro.erl:70-71 | counts a prepared id in its own slot and refuses any other before counting |
| HitCount.Dense.Hits | bench/efz_hit_count_micro.erl:72-73 | n rounds over the used ids, in order |
| HitCount.Dense.Snapshot | bench/efz_hit_count_micro.erl:76-77 | the positive slots under their ids |
| HitCount.Dense.Reset | bench/efz_hit_count_micro.erl:79-80 | every slot zero, the snapshot empty, the slots still there |

## Left out

- Starting up: command line, build hashing, tool and version discovery, the campaign's configuration record and the loading of a finding to reproduce are inputs or not modelled.
- The final report's plain copies of fields (pids, seconds, events, findings, quarantine); that reading the recorded verdicts back for a reproduction succeeds is taken from `Records.ResultReadsBack`, and a failure there, an error exit, is not modelled.
- Creation of the journal's root and campaign folders: their own mkdir and fsync come before the first run and are taken as done.
- The index of crashes under `crashes/external`, rewritten after each finding: an output nobody reads back.
- The text the launcher prints: its lines arrive as rows, and a line that cannot be read, or too many bytes without one, is one fatal row.
- The launcher's own wait for its process and a failing `send` end the controller like any other kill.
- The fields of events other than kind and generation, and of the launcher's evidence other than exit code, signal, confirmation and kill, do not influence any step.
- A rejected handshake may leave the reported versions noted in the controller; they are read only after a handshake that passed.
- Python's equality of `True`, `1` and `1.0` in metadata: numbers and flags are different values here.
- PREPARING and FINALIZING are states inside the handling of one frame and never seen between frames.
- Unbounded waiting: that a step is eventually taken is not stated anywhere, only what holds whenever it is.
- Fields of the JSON metadata that are missing raise different exceptions in the source; all of them end recovery, here as one of the read errors.
- Lifecycle.CampaignInv: allows the blocks of the loop in any order, which is more than the loop does; `ControllerObject.Controller.OneRound` has the source's order.
- JournalObject.Journal.Recover: the order in which folders are listed is any order.
- History: a controller that fails on its own account, on a scan limit, byte budget or conflicting verdict, is taken for killed at that point.
- ControllerObject.Controller.RunCampaign: after a fatal error it promises which error it was and where, and what the worker was told, but not the fields of the object; what happens to the disk then is the subject of `History`.
- Process groups: the signal to the worker's group is one of the things that may happen to its members; descendants that make themselves subreapers are not modelled.
- The 2000 ms of the launcher's cleanup are a finite list of passes; its parent watch, resource limits and decoding of the wait status are not modelled.
- Session: the user's own timeouts are callers that leave; thread scheduling is any interleaving, so nothing is said about when.
- The meaning of operations and results of the client (`_mutation_result`, saved results, campaign objects), process launch and reaping in `close`, and stderr collection.
- The supervisor's JSON parsing is a parameter that reads back what was printed; duplicate keys and non-finite numbers in the client's are not modelled, and its reader is any that reads back what was printed, of which `JsonReader.Parse` is one.
- The sizes a batch may have, and the container count of a request, are limits of their own; the nesting theorems are about nesting only.
- Timing, memory figures, medians and the sorting of rows in the counter benchmark; snapshots are maps, and are taken when the writers are done.
- The Erlang worker, its bitmap backend, guardian, mutation planner and corpus store, the terminal interface and the benchmark drivers.
