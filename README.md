# lj — a Dafny model of the magnet downloader's core

`lj` takes a magnet link and hands it to the Real-Debrid service. It waits for
the service to list the torrent's files and picks the files to fetch; when the
torrent contains several good candidates, it asks the user which ones to take.
It then waits for the service to finish the remote download and turns each
hosted link into a direct URL. For every URL it saves a job record and starts a
detached copy of itself (`lj --bg-download <id>`). That copy is the worker: it
streams the file to disk and checkpoints its progress into the job record.
`lj dl` is the dashboard. It first repairs the records of workers that died,
then lists the jobs, and then accepts cancel, remove, clear and quit commands.
The processes share nothing but a directory of JSON records, one per job, and
every write replaces a whole record.

The model follows `src/main.rs`:

| module | file | what it holds |
|---|---|---|
| `Wrappers` | `wrappers.dfy` | `Option` and `Result` |
| `Text` | `text.dfy` | the standard-library string behaviour the decisions depend on: `str::trim` with Unicode whitespace, ASCII lowercasing, `str::contains`, printing and parsing 64-bit numbers, UTF-8 byte offsets |
| `Jobs` | `jobs.dfy` | the `Download` record; the record each write site saves; the job id; the invariant that a record has a pid exactly when it is Downloading |
| `Store` | `store.dfy` | the records directory as a map from id to entry (a parsable record or an unreadable file); the class `JobStore` with `Load`, `Save`, `Delete` and `LoadAll`; arbitrary interleavings of the processes' whole-record writes |
| `Remote` | `remote.dfy` | the file-selection policy, the two polling loops, link resolution, and `process_magnet` end to end |
| `Launch` | `launch.dfy` | the launch loop of `main` and the spawner's update |
| `Worker` | `worker.dfy` | the background worker: the claim, the chunk loop with its 500 ms checkpoints and cancellation check, and the final record |
| `Dashboard` | `dashboard.dfy` | reconciliation, command parsing, cancel, remove, clear, and the command loop, including the restart after `C` |
| `Cli` | `cli.dfy` | worker mode, the subcommands, the `magnet:` check, and where the API key comes from |

Everything the program gets from outside is an input to the model:

- the service's answers, as a sequence of polls and a function from link to unrestrict result;
- the user's choice in the multi-select, and the lines typed into the dashboard;
- the clock readings;
- the results of spawning a child;
- each body chunk with its write error;
- the set of pids that answer a null signal;
- the whole-record writes other processes make while a worker's chunk is in flight: those that land before a checkpoint's reload (`Chunk.others`) and those that land between the reload and the checkpoint's save (`Chunk.racing`).

The store is the `entries` field of a `JobStore` object, which the operations
update in place. The worker, the launcher and the dashboard are methods that
are proved against pure functions of the old store (`Stream`, `Transfer`,
`Launched`, `ReconciledDisk`, `Commands`). The properties are lemmas about
those functions.

Behaviours of the code worth knowing:

- The file wait accepts a `waiting_files_selection` answer carrying an empty list. Selection then fails with "No files in torrent".
- The completion wait returns an empty link list as success. Resolution then fails with "No download links obtained". "No links available" is reported only when the answer has no list at all.
- A file is valid only when its path does not mention "sample" AND it is larger than 1 000 000 bytes. In other words, it is excluded when either test fails.
- The repair reason is "Process died", with a capital P.
- Cancelling from the dashboard sends SIGTERM to the worker and saves the Cancelled record; it does not delete the partial file. SIGTERM's default action ends the worker at once, before any checkpoint can see the cancellation, so the partial file normally stays on disk. The worker deletes the file itself only if it is still running when a checkpoint reloads the Cancelled record.
- `r <n>` deletes the record whatever its status, including a running job's.
- The worker's checkpoint reloads the record and saves it as two separate steps. A cancellation saved between them is overwritten by the checkpoint, which puts the worker's Downloading copy back, and the transfer goes on (`Worker.RacingCancelIsOverwritten`).
- Paths are lowercased with `to_lowercase`. The model lowercases ASCII letters only. No character outside ASCII lowercases to one of the letters of "sample", so both decide "contains sample" alike for this test.

## Model

| member | source | states |
|---|---|---|
| Text.TrimShape | src/main.rs:728-735 | trimming keeps an infix that starts and ends with a non-whitespace character and drops only whitespace; the result is empty exactly for a blank line |
| Text.TrimPadded | src/main.rs:123-128 | trimming a word padded with any whitespace gives the word back |
| Text.ContainsIffOccurs | src/main.rs:440-441 | the substring test holds exactly when the pattern occurs at some position |
| Text.DecimalRoundTrip | src/main.rs:752-755 | printing a number that fits in 64 bits and parsing it back gives the number |
| Text.DecimalInjective | src/main.rs:861-868 | two numbers print alike exactly when they are equal |
| Text.BytePrefix | src/main.rs:867 | a byte slice ending on a character boundary is a prefix of the string with exactly that many UTF-8 bytes |
| Jobs.JobIdShape | src/main.rs:861-868 | an id is the millisecond count in decimal, '-', then a prefix of the filename of at most ten bytes |
| Jobs.JobIdParts | src/main.rs:861-868 | an id splits back into its number, the '-' and the filename fragment |
| Jobs.JobIdEquality | src/main.rs:861-868 | two ids are equal if and only if they come from the same millisecond and from filenames with the same first ten bytes |
| Jobs.JobIdOfAscii | src/main.rs:861-868 | for an ASCII filename the slice never panics and the id ends with the first ten characters |
| Jobs.NewDownload | src/main.rs:870-884 | a new job is Pending with no pid, nothing downloaded and the probed size as its total |
| Jobs.Claimed | src/main.rs:534-537 | a claim makes the job Downloading with the given pid and keeps the job's identity and its counters |
| Jobs.Progressed | src/main.rs:604-607 | a checkpoint sets the byte count, the total and the speed to the given values and changes nothing else, so a record with matching pid and status keeps them matching |
| Jobs.Finished | src/main.rs:618-635 | the final record has no pid and no speed; it is Completed if and only if the transfer succeeded, with every byte counted; Cancelled if and only if the error is "Cancelled"; otherwise Failed with the error as its reason |
| Jobs.Repaired | src/main.rs:646-653 | a repaired record has no pid; it is Completed if and only if the total is known and every byte arrived, otherwise Failed("Process died"); no other field changes |
| Jobs.CancelledJob | src/main.rs:759-768 | a cancelled record is Cancelled with no pid, so it keeps the pid invariant |
| Jobs.ReconcileChangesOnlyDeadWorkers | src/main.rs:644-658 | reconciliation changes a record if and only if it is Downloading for a pid that does not answer; the change is the repair, and the pid invariant is kept |
| Jobs.SiteRecord | src/main.rs:534-537 | whichever write site saves a record, and whatever record it starts from, the saved record has a pid exactly when it is Downloading |
| Store.LoadAfterSave | src/main.rs:141-157 | a saved record is loaded back whole under its id, other ids are unaffected, and the directory stays well keyed |
| Store.LoadAfterDelete | src/main.rs:180-183 | after a delete the id loads nothing, other ids are unaffected, and deleting an absent id changes nothing |
| Store.InterleavingKeepsPidInvariant | src/main.rs:141-147 | whatever sequence of whole-record writes the processes make, the directory stays well keyed and keeps the pid invariant |
| Store.InsertKeepsSorted | src/main.rs:176 | inserting a record into a list sorted by start time keeps it sorted |
| Store.SortByStart | src/main.rs:176 | the sorted list is a permutation of the input, ordered by start time |
| Store.ReadOneMore | src/main.rs:163-174 | reading one more file adds its record to what has been read, unless the file does not parse |
| Store.JobStore.constructor | src/main.rs:141-183 | a store opened on a well-keyed directory holds exactly that directory |
| Store.JobStore.Load | src/main.rs:149-157 | a load finds nothing exactly when the file is missing or unparsable, and otherwise returns the record stored under the id |
| Store.JobStore.Save | src/main.rs:141-147 | the directory afterwards is the old one with the record stored under its id, which then loads back |
| Store.JobStore.Delete | src/main.rs:180-183 | the directory afterwards is the old one without the id |
| Store.JobStore.LoadAll | src/main.rs:159-178 | the result is sorted by start time and holds each parsable record exactly once, and each loads back under its own id |
| Remote.ValidFiles | src/main.rs:437-444 | a file is kept if and only if it is in the torrent and valid |
| Remote.CheckedIds | src/main.rs:481 | the checked ids are ids of checked valid files, every checked valid file's id is among them, and they are empty exactly when no valid file is checked |
| Remote.CheckedPositions | src/main.rs:470-481 | the listed positions are checked positions of the list |
| Remote.CheckedPositionsComplete | src/main.rs:470-481 | every checked position of the list is listed |
| Remote.CheckedPositionsIncrease | src/main.rs:470-481 | the listed positions are in increasing order, so each is listed once |
| Remote.CheckedIdsInOrder | src/main.rs:481 | the submitted ids are the ids of the checked valid files, each once, in the order of the list |
| Remote.NoValidFiles | src/main.rs:437-444 | a torrent without a valid file has no valid files |
| Remote.OnlyValidFile | src/main.rs:437-444 | a torrent with one valid file has exactly that file as its valid list |
| Remote.SingleValidFileIsSelected | src/main.rs:446-452 | exactly one valid file means that file is selected without a prompt |
| Remote.NoValidFileSelectsAll | src/main.rs:453-458 | no valid file means every file is selected in the torrent's order, or "No files in torrent" when there are none |
| Remote.SeveralValidFilesFollowChoice | src/main.rs:459-481 | with several valid files the checked ones are selected in list order; keeping the defaults selects every valid file; unchecking all deletes the torrent and fails with "No files selected" |
| Remote.AllCheckedIsAll | src/main.rs:470-481 | when every item is checked, the ids of all the valid files are submitted |
| Remote.SelectionIsFromTorrent | src/main.rs:446-481 | every submitted id belongs to a file of the torrent, and to a valid one unless no file is valid |
| Remote.SelectionExample | src/main.rs:437-452 | of a small sample, a large movie and a tiny info file, the movie alone is selected |
| Remote.MovieIsValid | src/main.rs:437-444 | a 2 000 000-byte "movie.mkv" is a valid file |
| Remote.WaitForFiles | src/main.rs:352-381 | the loop returns the verdict of the first poll that decides anything, names that poll, and every earlier poll decided nothing |
| Remote.WaitForDownload | src/main.rs:383-426 | the loop returns the verdict of the first poll that decides anything, names that poll, and every earlier poll decided nothing |
| Remote.FilesWaitDecisions | src/main.rs:360-377 | the file wait succeeds if and only if a poll within 60 s reports "waiting_files_selection" with a list; it keeps polling if and only if a poll is in time, asks successfully, and gets neither that nor an error status |
| Remote.DownloadWaitDecisions | src/main.rs:391-422 | "downloaded" returns its links, even an empty list, or fails with "No links available" when it has none; any other status that is not an error keeps it polling |
| Remote.WaitsShareErrorsAndStrictTimeouts | src/main.rs:361-377 | both waits stop on the same three error statuses with the same message; a poll exactly at the limit is not a timeout; one past the limit is |
| Remote.DecideIsFirstVerdict | src/main.rs:360-380 | the first deciding poll decides the wait, whatever later polls would have answered |
| Remote.ContentLength | src/main.rs:495-502 | the probed size always fits in 64 bits |
| Remote.ContentLengthOfSize | src/main.rs:495-502 | a Content-Length header holding a 64-bit size is read back as that size |
| Remote.Obtained | src/main.rs:491-509 | nothing is obtained if and only if every unrestrict call failed |
| Remote.ObtainedAppend | src/main.rs:491-509 | resolution keeps the links' order: resolving a concatenation concatenates the results |
| Remote.ResolveLinks | src/main.rs:491-518 | the result lists the obtained downloads in link order and is never empty; the batch fails with "No download links obtained" if and only if every link failed |
| Remote.ProcessMagnet | src/main.rs:428-519 | each step's outcome in turn: an add, file-wait, select or completion-wait error is returned as it is with the torrent kept; a failed selection returns its message and deletes the torrent only when every item was unchecked; a selection submits exactly the selected ids; after a successful completion wait the torrent is always deleted and the result is the downloads resolved from its links, or "No download links obtained" when there are none |
| Launch.DistinctClocksGiveDistinctIds | src/main.rs:861-868 | jobs launched in different milliseconds get different ids |
| Launch.LaunchedOneMore | src/main.rs:887-888 | launching one more job saves it and then records its worker, on top of the jobs launched before |
| Launch.LaunchKeepsInvariants | src/main.rs:860-888 | launching keeps the directory well keyed and keeps the pid invariant |
| Launch.LaunchedElsewhere | src/main.rs:860-888 | launching leaves every id that no launched job has unchanged |
| Launch.LaunchedHere | src/main.rs:860-888 | when the ids are distinct, every launched job is stored claimed for its worker, or Pending if the spawn failed |
| Launch.Spawn | src/main.rs:521-543 | a started child makes the record Downloading with the child's pid; a failed spawn writes nothing |
| Launch.LaunchOne | src/main.rs:887-888 | the job is saved, then its worker is recorded |
| Launch.LaunchAll | src/main.rs:860-888 | each launched job is the Pending job for its link and clock reading; launching stops only at a filename whose ten-byte slice would panic; the store ends up as all launched jobs saved and spawned in order |
| Worker.ChunkStep | src/main.rs:583-611 | a chunk that ends the transfer ends it with an error and no checkpoint; a chunk that does not saves at most one checkpoint |
| Worker.StreamErrors | src/main.rs:583-614 | a transfer fails only with "Cancelled" or with a read or write error of a chunk |
| Worker.ChunkStepStops | src/main.rs:584-601 | a chunk that ends the transfer leaves the worker's copy as it was: a failed read or write, or a due checkpoint that finds the job cancelled |
| Worker.ChunkStepGoesOn | src/main.rs:590-611 | a chunk that does not end the transfer adds its length to the count; a due checkpoint saves the copy with the new count and total and changes nothing else about the job |
| Worker.StreamKeepsInvariants | src/main.rs:583-612 | whatever other processes write meanwhile, the loop keeps the directory well keyed and keeps the pid invariant, and the worker's copy stays its claimed job |
| Worker.CheckpointBounds | src/main.rs:590-611 | every checkpoint's count lies between the count at the start and the bytes written |
| Worker.PrependCheckpoint | src/main.rs:592-611 | a checkpoint followed by checkpoints with at least its count keeps the counts non-decreasing |
| Worker.CheckpointsNeverGoBack | src/main.rs:592-611 | the persisted byte count never decreases from one checkpoint to the next |
| Worker.CheckpointsKeepTheJob | src/main.rs:604-607 | every checkpoint is the worker's copy with new counters: it records the total and keeps the job, its status and its pid |
| Worker.SavePoints | src/main.rs:583-611 | the chunks at which checkpoints are saved lie within the chunks |
| Worker.SavePointsIncrease | src/main.rs:583-611 | the save points strictly increase |
| Worker.CheckpointsCountChunks | src/main.rs:590-607 | there is one save point per checkpoint, and the j-th checkpoint records the starting count plus the lengths of the chunks up to and including its save point |
| Worker.CheckpointsFallDue | src/main.rs:592-609 | the chunk at each save point is at least 500 ms past the previous checkpoint (the loop's start for the first), and no chunk between the previous save point and it was |
| Worker.UndisturbedIsNeverCancelled | src/main.rs:596-601 | a worker whose record no other process writes is never cancelled |
| Worker.RacingCancelIsOverwritten | src/main.rs:596-607 | a cancellation that lands after a due checkpoint's reload and before its save is overwritten: the store then holds the worker's copy with its old status, and the transfer goes on |
| Worker.StreamCancelledByReload | src/main.rs:583-612 | the chunk loop ends with "Cancelled" if and only if some chunk it reaches makes a checkpoint due whose reload finds the job Cancelled |
| Worker.TransferCancelledByReload | src/main.rs:545-635 | the final record is Cancelled if and only if the reply streamed, the file was created, and a checkpoint's reload then found the job Cancelled |
| Worker.CancelStopsAtCheckpoint | src/main.rs:592-601 | a cancellation that is stored when a checkpoint falls due ends the transfer with "Cancelled" and saves nothing |
| Worker.FinalRecord | src/main.rs:545-637 | the final record has no pid and no speed; it is Completed exactly on success, with every byte counted; it is Cancelled only once the reply streamed and the file was created, never for a failed request or file creation; otherwise it is Failed with the error as its reason |
| Worker.BytesAppend | src/main.rs:590 | while every chunk arrives, the byte count adds up chunk by chunk |
| Worker.StreamNext | src/main.rs:583-612 | a chunk that lets the loop go on is followed by the rest of the loop |
| Worker.StreamStop | src/main.rs:583-612 | a chunk that ends the loop ends the transfer |
| Worker.Checkpoint | src/main.rs:592-611 | the checkpoint reports a cancellation when the reloaded record says Cancelled; otherwise it saves the worker's copy with the new counters over whatever other processes wrote since the reload |
| Worker.ReceiveChunk | src/main.rs:583-611 | one trip round the loop does what one chunk step of the transfer specifies, to the store and to the loop's state |
| Worker.StreamChunks | src/main.rs:578-614 | the loop ends with the outcome, the store, the worker's copy and the checkpoints the transfer specifies |
| Worker.RunWorker | src/main.rs:545-637 | a missing record means nothing is written; otherwise the job is claimed for the worker's own pid, transferred, and finished; the file is removed exactly on cancellation |
| Dashboard.ReconciledDisk | src/main.rs:641-658 | reconciliation keeps every file |
| Dashboard.ReconcileSettles | src/main.rs:641-662 | after reconciliation no record names a dead worker; a second pass changes nothing; a directory without such a record is left as it is; well-keyedness and the pid invariant are kept |
| Dashboard.ReconciledWorkersAreAlive | src/main.rs:641-658 | a worker that a Downloading record names after reconciliation answers the null signal and was named before |
| Dashboard.Reconcile | src/main.rs:641-658 | the store becomes the reconciled directory |
| Dashboard.ParseCommand | src/main.rs:732-783 | a numbered command names one of the listed jobs |
| Dashboard.NumberedLine | src/main.rs:732-755 | 'c' or 'r' and a number, padded with whitespace, trim to that key followed by that number |
| Dashboard.CommandOfNumber | src/main.rs:752-757 | 'c' or 'r' and a listed number, with any whitespace around and between them, select that job |
| Dashboard.UnlistedNumbersAreIgnored | src/main.rs:755-757 | a number of 0 or past the listing is ignored |
| Dashboard.SpelledOutCommandIsIgnored | src/main.rs:752-757 | "cancel 1" is ignored, because only a number may follow the 'c' |
| Dashboard.CommandOf | src/main.rs:728-730 | a read error ends the loop, and a numbered command names one of the listed jobs |
| Dashboard.Parsed | src/main.rs:728-783 | proof helper for the command loop: the commands read from the lines, one per line, each in range of the listing |
| Dashboard.AllowedTransitive | src/main.rs:737-784 | two runs of permitted changes together are one permitted change |
| Dashboard.AllowedKeepsWorkers | src/main.rs:737-784 | permitted changes name no new worker and make no record need a repair |
| Dashboard.ExecutedIsAllowed | src/main.rs:752-779 | a command only makes permitted changes, keeps the directory well keyed and the pid invariant, and signals only a worker named by a Downloading record |
| Dashboard.RunIsAllowed | src/main.rs:723-785 | a run of commands only makes permitted changes, keeps the directory well keyed and the pid invariant, signals only workers named by Downloading records, and restarts on fewer lines |
| Dashboard.CancelJob | src/main.rs:758-771 | a cancel saves the reloaded job Cancelled and signals its pid when it is Downloading, and otherwise does nothing |
| Dashboard.ClearFinished | src/main.rs:739-747 | the store loses exactly the listed jobs whose listed status is terminal |
| Dashboard.ExecuteCommand | src/main.rs:752-779 | a command changes the store and signals as its effect specifies |
| Dashboard.RunCommands | src/main.rs:723-785 | the loop ends with the store, the signals and the lines left for the restart that the command sequence specifies |
| Dashboard.ShowDownloads | src/main.rs:639-786 | each round reconciles, lists every readable record oldest first, stops when there is none, and otherwise ends with the store and signals its commands specify, `C` starting the next round on the lines left; every change to a file is a repair of a dead worker's record, a cancellation of a Downloading record or a deletion; SIGTERM goes only to live workers named by Downloading records; the pid invariant is kept |
| Cli.LoadApiKey | src/main.rs:115-132 | a key that is found is never empty |
| Cli.ApiKeyPriority | src/main.rs:115-132 | a non-empty variable wins untrimmed; without it, a key is found if and only if the file holds more than whitespace |
| Cli.SavedKeyLoadsBack | src/main.rs:134-139 | a saved key without surrounding whitespace is loaded back as it was, whatever whitespace ends up around it in the file |
| Cli.ApiKey | src/main.rs:834-844 | the key used is never empty, and a stored key wins over the prompt |
| Cli.Main | src/main.rs:788-844 | `--bg-download <id>` runs the worker before anything else is parsed; a link is processed if and only if it starts with `magnet:` and a non-empty key is found |
| Cli.PromptOnlyWithoutStoredKey | src/main.rs:834-844 | the prompt's answer makes no difference when a key is stored |
| Cli.WorkerInvocation | src/main.rs:790-794 | the worker is found by the id after the flag, whatever arguments follow |

## Left out

- HTTP, JSON and the file system are not modelled. The Real-Debrid calls are inputs. The records directory is a map from id to entry. `get_config_dir`, the path helpers and serde are not part of this model.
- Process control is modelled only through its results. Spawning is an input (`Option<nat>` for the child's pid). The null-signal liveness probe is an input set of live pids. SIGTERM is recorded only as the list of pids signalled.
- The terminal output is left out: the listing's rendering, the progress bars, the percentages, `format_bytes`, the colours and the telemetry line of the completion wait.
- Speed is an f64 in bytes per second in the program. The model keeps it as a `Rate` (bytes over milliseconds), and only the display reads it.
- Clock readings are whole milliseconds. The program measures `Instant` durations at finer resolution, and it reads the clock three times at a checkpoint (to test whether it is due, for the speed, and to reset the timer). The model reads one value for all three.
- The model's byte counters are unbounded: `u64` overflow of `downloaded` is not modelled. The `pid as i32` cast before signalling is not modelled either.
- Save errors are ignored by the program and are not modelled: every save succeeds. Unreadable record files are modelled, and they read as absent.
- `spawn_background_download` saves a clone of the job it was given, so it can overwrite a record a fast worker already wrote. The model does carry other processes' writes into the worker's chunks (`Chunk.others` and `Chunk.racing`), but the spawner's write lands right after the launcher's save.
- The dashboard reloads a job before cancelling it. Writes landing between that reload and the save are not modelled.
- Worker writes that land between the dashboard's own reads and writes are not modelled.
- When the dashboard's standard input reaches end of file, `read_line` returns an empty line and the program loops forever. In the model a finite list of lines simply ends.
- After `C`, the dashboard starts over and probes the workers' liveness again. The model uses the same set of live pids for every round.
- Launch.LaunchAll: slicing the filename at byte 10 panics in the program when that byte falls inside a character. The model stops the launch loop at that link instead of aborting the process. The jobs saved before it are kept, as they are in the program.
- The interactive prompts are not modelled: the multi-select's result and the prompted API key are inputs. `prompt_api_key` also saves the key it reads; that save is not modelled (`Cli.SavedKeyLoadsBack` states what a later load finds).
- Argument parsing is not modelled: what clap makes of the command line is an input (`Cli.Parsed`). `set-key`'s prompt and save are reduced to the `SetApiKey` outcome.
- The dashboard's numbers are parsed as `usize`, which the model takes to be 64 bits wide.
- `Text.Lowercase` lowercases ASCII letters only. `str::to_lowercase` maps all of Unicode. The difference cannot change whether a path contains "sample".
- SIGTERM's effect on the worker is not modelled: the worker keeps running after it is signalled. `Worker.CancelStopsAtCheckpoint` and the `fileRemoved` result of `Worker.RunWorker` describe a worker that is still running when a checkpoint reloads the Cancelled record, which in the program needs a worker that survived the signal.
- Store.JobStore.constructor: it requires a well-keyed directory, where each record is stored under its own id. A file whose record id differs from its file name arises only when something outside the program edits the directory, and the model excludes it.
- `Remote.ProcessMagnet`: the model returns None when the given polls run out before a wait decides. The program would keep polling until the timeout.
