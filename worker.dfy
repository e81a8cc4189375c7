/**
 * The background worker (`lj --bg-download <id>`): it claims its job, streams
 * the file, saves a progress checkpoint at most every 500 ms (reloading the
 * record first to see whether the dashboard cancelled it), and saves the
 * final record.
 *
 * The GET reply, the file creation, every chunk and every clock reading are
 * inputs. Other processes share nothing with the worker but the job store;
 * the whole-record writes they make while a chunk is in flight are carried by
 * that chunk: some land before the checkpoint's reload, the others between
 * the reload and the checkpoint's save.
 */
module Worker {
  import opened Wrappers
  import opened Text
  import opened Jobs
  import opened Store

  const CheckpointMs: nat := 500

  /** The error string by which the transfer reports a cancellation. */
  const CancelledError: string := "Cancelled"

  /** What the streaming GET gave back. */
  datatype Reply =
    | RequestFailed(error: string)
    | HttpError(status: string)
    | Streaming(contentLength: Option<nat>)

  /**
   * One chunk of the body: the writes other processes make before the
   * checkpoint's reload, the chunk's length or its error, the error of
   * writing it to the file, the clock reading taken after it was written,
   * and the writes other processes make after the reload, before the save.
   * On a chunk without a checkpoint both lists simply land in turn.
   */
  datatype Chunk = Chunk(others: seq<Write>, body: Result<nat>, writeError: Option<string>, clockMs: nat,
                         racing: seq<Write>)

  /** The store once all of a chunk's foreign writes have landed. */
  function Landed(disk: Disk, c: Chunk): Disk {
    ApplyAll(ApplyAll(disk, c.others), c.racing)
  }

  /** The loop's variables: the worker's copy of its record, `downloaded`, `last_update`, `last_bytes`. */
  datatype Progress = Progress(local: Download, downloaded: nat, lastMs: nat, lastBytes: nat)

  /** Where a transfer ends: the store, the worker's copy, the outcome, the checkpoints saved, the bytes written. */
  datatype Streamed = Streamed(disk: Disk, local: Download, outcome: Result<()>, saves: seq<Download>, downloaded: nat)

  /** The bytes of the chunks that arrived, up to the first one that failed. */
  function Bytes(chunks: seq<Chunk>): nat {
    if chunks == [] || chunks[0].body.Err? then 0 else chunks[0].body.value + Bytes(chunks[1..])
  }

  /** The size recorded at checkpoints: the reply's Content-Length, else the size the job was created with. */
  function TotalSize(contentLength: Option<nat>, record: Download): nat {
    if contentLength.Some? then contentLength.value else record.totalBytes
  }

  /** What one chunk does: the loop goes on from a new state, having saved `saved`, or the transfer ends. */
  datatype Step = Next(disk: Disk, p: Progress, saved: seq<Download>) | Stop(end: Streamed)

  function ChunkStep(disk: Disk, id: string, total: nat, p: Progress, c: Chunk): (s: Step)
    ensures s.Stop? ==> s.end.outcome.Err? && s.end.saves == []
    ensures s.Next? ==> |s.saved| <= 1
  {
    var landed := Landed(disk, c);
    if c.body.Err? then Stop(Streamed(landed, p.local, Err("Download error: " + c.body.error), [], p.downloaded))
    else if c.writeError.Some? then Stop(Streamed(landed, p.local, Err("Write error: " + c.writeError.value), [], p.downloaded))
    else
      var downloaded := p.downloaded + c.body.value;
      if c.clockMs < p.lastMs + CheckpointMs then Next(landed, p.(downloaded := downloaded), [])
      else
        var reloaded := Lookup(ApplyAll(disk, c.others), id);
        if reloaded.Some? && reloaded.value.status == Cancelled then
          Stop(Streamed(landed, p.local, Err(CancelledError), [], downloaded))
        else
          var local := Progressed(p.local, downloaded, total, Rate(downloaded - p.lastBytes, c.clockMs - p.lastMs));
          Next(Saved(landed, local), Progress(local, downloaded, c.clockMs, downloaded), [local])
  }

  /** The chunk loop, from the state `p`, with `total` the size recorded at checkpoints. */
  function Stream(disk: Disk, id: string, total: nat, p: Progress, chunks: seq<Chunk>): Streamed
    decreases |chunks|
  {
    if chunks == [] then Streamed(disk, p.local, Ok(()), [], p.downloaded)
    else match ChunkStep(disk, id, total, p, chunks[0])
      case Stop(end) => end
      case Next(next, q, saved) =>
        var rest := Stream(next, id, total, q, chunks[1..]);
        rest.(saves := saved + rest.saves)
  }

  /** The transfer fails only with the cancellation or with a read or write error of a chunk. */
  lemma {:induction false} StreamErrors(disk: Disk, id: string, total: nat, p: Progress, chunks: seq<Chunk>)
    ensures var r := Stream(disk, id, total, p, chunks);
      r.outcome.Err? ==>
        r.outcome.error == CancelledError ||
        StartsWith(r.outcome.error, "Download error: ") || StartsWith(r.outcome.error, "Write error: ")
    decreases |chunks|
  {
    if chunks != [] {
      var c := chunks[0];
      match ChunkStep(disk, id, total, p, c)
      case Stop(end) =>
        if c.body.Err? {
          assert StartsWith("Download error: " + c.body.error, "Download error: ");
        } else if c.writeError.Some? {
          assert StartsWith("Write error: " + c.writeError.value, "Write error: ");
        }
      case Next(next, q, _) =>
        StreamErrors(next, id, total, q, chunks[1..]);
    }
  }

  /** Everything after the claim: the GET, the file creation, then the chunk loop. */
  function Transfer(disk: Disk, id: string, start: Download, reply: Reply, createError: Option<string>,
                    startMs: nat, chunks: seq<Chunk>): Streamed
  {
    match reply
    case RequestFailed(e) => Streamed(disk, start, Err("Request failed: " + e), [], 0)
    case HttpError(status) => Streamed(disk, start, Err("HTTP error: " + status), [], 0)
    case Streaming(contentLength) =>
      if createError.Some? then Streamed(disk, start, Err("Failed to create file: " + createError.value), [], 0)
      else Stream(disk, id, TotalSize(contentLength, start), Progress(start, 0, startMs, 0), chunks)
  }

  // ---------------------------------------------------------------------------
  // Properties of the chunk loop

  /**
   * A chunk that ends the transfer leaves the worker's copy as it was: a
   * failed read or write, or a checkpoint that finds the job cancelled.
   */
  lemma ChunkStepStops(disk: Disk, id: string, total: nat, p: Progress, c: Chunk)
    requires ChunkStep(disk, id, total, p, c).Stop?
    ensures var s := ChunkStep(disk, id, total, p, c);
      var now := ApplyAll(disk, c.others);
      && s.end.disk == Landed(disk, c) && s.end.local == p.local && p.downloaded <= s.end.downloaded
      && (s.end.outcome == Err(CancelledError) <==>
            c.body.Ok? && c.writeError.None? && c.clockMs >= p.lastMs + CheckpointMs &&
            Lookup(now, id).Some? && Lookup(now, id).value.status == Cancelled)
  {
    if c.body.Err? {
      assert ("Download error: " + c.body.error)[0] == 'D';
    } else if c.writeError.Some? {
      assert ("Write error: " + c.writeError.value)[0] == 'W';
    }
  }

  /**
   * A chunk that lets the loop go on adds its length to the count; when it
   * falls due, the checkpoint saves the copy with the new count and `total`,
   * changing nothing else about the job.
   */
  lemma ChunkStepGoesOn(disk: Disk, id: string, total: nat, p: Progress, c: Chunk)
    requires ChunkStep(disk, id, total, p, c).Next?
    ensures var s := ChunkStep(disk, id, total, p, c);
      && c.body.Ok? && s.p.downloaded == p.downloaded + c.body.value
      && SameJob(p.local, s.p.local) && s.p.local.status == p.local.status && s.p.local.pid == p.local.pid
      && (s.saved == [] ==>
            s.disk == Landed(disk, c) && s.p.local == p.local && s.p.lastMs == p.lastMs && c.clockMs < p.lastMs + CheckpointMs)
      && (s.saved != [] ==>
            && s.saved == [s.p.local] && s.disk == Saved(Landed(disk, c), s.p.local)
            && s.p.lastMs == c.clockMs && c.clockMs >= p.lastMs + CheckpointMs
            && s.p.local.downloadedBytes == s.p.downloaded && s.p.local.totalBytes == total)
  {
  }

  /**
   * The loop keeps the store well keyed and its pid invariant, whatever the
   * other processes write, and the worker's copy stays its claimed job.
   */
  lemma {:induction false} StreamKeepsInvariants(disk: Disk, id: string, total: nat, p: Progress, chunks: seq<Chunk>)
    requires p.local.id == id && PidMatchesStatus(p.local)
    ensures var r := Stream(disk, id, total, p, chunks);
      && (WellKeyed(disk) ==> WellKeyed(r.disk))
      && (PidsConsistent(disk) ==> PidsConsistent(r.disk))
      && PidMatchesStatus(r.local) && SameJob(p.local, r.local)
      && r.local.status == p.local.status && r.local.pid == p.local.pid
    decreases |chunks|
  {
    if chunks != [] {
      InterleavingKeepsPidInvariant(disk, chunks[0].others);
      InterleavingKeepsPidInvariant(ApplyAll(disk, chunks[0].others), chunks[0].racing);
      match ChunkStep(disk, id, total, p, chunks[0])
      case Stop(_) =>
        ChunkStepStops(disk, id, total, p, chunks[0]);
      case Next(next, q, _) =>
        ChunkStepGoesOn(disk, id, total, p, chunks[0]);
        StreamKeepsInvariants(next, id, total, q, chunks[1..]);
    }
  }

  /** Every checkpoint's byte count lies between the count at the start and the bytes written. */
  lemma {:induction false} CheckpointBounds(disk: Disk, id: string, total: nat, p: Progress, chunks: seq<Chunk>)
    ensures var r := Stream(disk, id, total, p, chunks);
      && p.downloaded <= r.downloaded
      && (forall s :: s in r.saves ==> p.downloaded <= s.downloadedBytes <= r.downloaded)
    decreases |chunks|
  {
    if chunks != [] {
      match ChunkStep(disk, id, total, p, chunks[0])
      case Stop(_) =>
        ChunkStepStops(disk, id, total, p, chunks[0]);
      case Next(next, q, _) =>
        ChunkStepGoesOn(disk, id, total, p, chunks[0]);
        CheckpointBounds(next, id, total, q, chunks[1..]);
    }
  }

  predicate NeverGoesBack(saves: seq<Download>) {
    forall i, j :: 0 <= i < j < |saves| ==> saves[i].downloadedBytes <= saves[j].downloadedBytes
  }

  /** A checkpoint followed by later ones that record at least its count never goes back. */
  lemma PrependCheckpoint(first: seq<Download>, rest: seq<Download>)
    requires |first| <= 1 && NeverGoesBack(rest)
    requires forall x, y :: x in first && y in rest ==> x.downloadedBytes <= y.downloadedBytes
    ensures NeverGoesBack(first + rest)
  {
    var saves := first + rest;
    forall i, j | 0 <= i < j < |saves| ensures saves[i].downloadedBytes <= saves[j].downloadedBytes {
      if i < |first| {
        assert saves[i] in first && saves[j] in rest;
      } else {
        assert saves[i] == rest[i - |first|] && saves[j] == rest[j - |first|];
      }
    }
  }

  /** The persisted byte count never decreases from one checkpoint to the next. */
  lemma {:induction false} CheckpointsNeverGoBack(disk: Disk, id: string, total: nat, p: Progress, chunks: seq<Chunk>)
    ensures NeverGoesBack(Stream(disk, id, total, p, chunks).saves)
    decreases |chunks|
  {
    if chunks != [] && ChunkStep(disk, id, total, p, chunks[0]).Next? {
      var step := ChunkStep(disk, id, total, p, chunks[0]);
      ChunkStepGoesOn(disk, id, total, p, chunks[0]);
      StreamNext(disk, id, total, p, chunks, []);
      CheckpointsNeverGoBack(step.disk, id, total, step.p, chunks[1..]);
      CheckpointBounds(step.disk, id, total, step.p, chunks[1..]);
      PrependCheckpoint(step.saved, Stream(step.disk, id, total, step.p, chunks[1..]).saves);
    }
  }

  /**
   * Every checkpoint is the worker's copy of its job with new counters: it
   * records `total` and keeps the job's fields, its status and its pid.
   */
  lemma {:induction false} CheckpointsKeepTheJob(disk: Disk, id: string, total: nat, p: Progress, chunks: seq<Chunk>)
    ensures forall s :: s in Stream(disk, id, total, p, chunks).saves ==>
      s.totalBytes == total && SameJob(p.local, s) && s.status == p.local.status && s.pid == p.local.pid
    decreases |chunks|
  {
    if chunks != [] {
      match ChunkStep(disk, id, total, p, chunks[0])
      case Stop(_) =>
        ChunkStepStops(disk, id, total, p, chunks[0]);
      case Next(next, q, saved) =>
        ChunkStepGoesOn(disk, id, total, p, chunks[0]);
        CheckpointsKeepTheJob(next, id, total, q, chunks[1..]);
    }
  }

  /**
   * The chunks after which the checkpoints were saved, each counted from 1
   * (the i-th chunk is `chunks[i - 1]`), in increasing order.
   */
  function SavePoints(disk: Disk, id: string, total: nat, p: Progress, chunks: seq<Chunk>): (ks: seq<nat>)
    ensures forall j :: 0 <= j < |ks| ==> 1 <= ks[j] <= |chunks|
    decreases |chunks|
  {
    if chunks == [] then []
    else
      var s := ChunkStep(disk, id, total, p, chunks[0]);
      if s.Stop? then []
      else
        var later := SavePoints(s.disk, id, total, s.p, chunks[1..]);
        (if s.saved == [] then [] else [1]) + Shifted(later)
  }

  /** Every element one larger. */
  function Shifted(ks: seq<nat>): (r: seq<nat>)
    ensures |r| == |ks| && forall j :: 0 <= j < |ks| ==> r[j] == ks[j] + 1
  {
    seq(|ks|, i requires 0 <= i < |ks| => ks[i] + 1)
  }

  /** Past the save point of the first chunk, each save point is one after the next state's. */
  lemma ShiftedAt(first: seq<nat>, later: seq<nat>, j: nat)
    requires |first| <= j < |first| + |later|
    ensures (first + Shifted(later))[j] == later[j - |first|] + 1
  {
  }

  /** The save points increase strictly. */
  lemma {:induction false} SavePointsIncrease(disk: Disk, id: string, total: nat, p: Progress, chunks: seq<Chunk>)
    ensures var ks := SavePoints(disk, id, total, p, chunks);
      forall i, j :: 0 <= i < j < |ks| ==> ks[i] < ks[j]
    decreases |chunks|
  {
    if chunks != [] {
      var s := ChunkStep(disk, id, total, p, chunks[0]);
      if s.Next? {
        SavePointsStep(disk, id, total, p, chunks);
        SavePointsIncrease(s.disk, id, total, s.p, chunks[1..]);
        var later := SavePoints(s.disk, id, total, s.p, chunks[1..]);
        var first: seq<nat> := if s.saved == [] then [] else [1];
        var ks := first + Shifted(later);
        forall i, j | 0 <= i < j < |ks| ensures ks[i] < ks[j] {
          ShiftedAt(first, later, j);
          if i >= |first| {
            ShiftedAt(first, later, i);
          }
        }
      }
    }
  }

  /** The save point before the j-th, or 0 (the loop's start) for the first. */
  function PreviousPoint(ks: seq<nat>, j: nat): nat {
    if 0 < j <= |ks| then ks[j - 1] else 0
  }

  /** The clock reading of the checkpoint before the j-th, or `startMs`, the loop's start reading, for the first. */
  function PreviousSaveMs(startMs: nat, chunks: seq<Chunk>, ks: seq<nat>, j: nat): nat {
    if 0 < j <= |ks| && 1 <= ks[j - 1] <= |chunks| then chunks[ks[j - 1] - 1].clockMs else startMs
  }

  /**
   * The j-th of the save points `ks` among `chunks` falls due, the loop
   * having started at `startMs`: the chunk at the save point is at least
   * 500 ms past the previous checkpoint, and no chunk since the previous one was.
   */
  ghost predicate DueAt(startMs: nat, chunks: seq<Chunk>, ks: seq<nat>, j: nat)
    requires j < |ks| && 1 <= ks[j] <= |chunks|
  {
    var previous := PreviousSaveMs(startMs, chunks, ks, j);
    && chunks[ks[j] - 1].clockMs >= previous + CheckpointMs
    && forall k :: PreviousPoint(ks, j) <= k < ks[j] - 1 ==> chunks[k].clockMs < previous + CheckpointMs
  }

  /** All the save points `ks` among `chunks` fall due. */
  ghost predicate FallDue(startMs: nat, chunks: seq<Chunk>, ks: seq<nat>)
    requires forall j :: 0 <= j < |ks| ==> 1 <= ks[j] <= |chunks|
  {
    forall j :: 0 <= j < |ks| ==> DueAt(startMs, chunks, ks, j)
  }

  /** One chunk that lets the loop go on: its save comes before those of the rest of the loop. */
  lemma StreamStep(disk: Disk, id: string, total: nat, p: Progress, chunks: seq<Chunk>)
    requires chunks != [] && ChunkStep(disk, id, total, p, chunks[0]).Next?
    ensures var s := ChunkStep(disk, id, total, p, chunks[0]);
      Stream(disk, id, total, p, chunks).saves == s.saved + Stream(s.disk, id, total, s.p, chunks[1..]).saves
  {
  }

  /** One chunk that lets the loop go on: the save points continue, one chunk later, from the next state. */
  lemma SavePointsStep(disk: Disk, id: string, total: nat, p: Progress, chunks: seq<Chunk>)
    requires chunks != [] && ChunkStep(disk, id, total, p, chunks[0]).Next?
    ensures var s := ChunkStep(disk, id, total, p, chunks[0]);
      var ks := SavePoints(disk, id, total, p, chunks);
      var later := SavePoints(s.disk, id, total, s.p, chunks[1..]);
      ks == (if s.saved == [] then [] else [1]) + Shifted(later)
  {
  }

  /** The bytes of the first m + 1 chunks, when the first one arrived. */
  lemma BytesOfPrefix(chunks: seq<Chunk>, m: nat)
    requires m < |chunks| && chunks[0].body.Ok?
    ensures Bytes(chunks[..m + 1]) == chunks[0].body.value + Bytes(chunks[1..][..m])
  {
    assert chunks[..m + 1][1..] == chunks[1..][..m];
  }

  /**
   * The counting step: a first chunk that brings the count from `before` to
   * `after` (saving it when `first` is [1]), followed by saves that count the
   * rest of the chunks from `after`, gives saves that count all the chunks
   * from `before`.
   */
  lemma CountsCarryOver(chunks: seq<Chunk>, before: nat, after: nat, first: seq<nat>, saved: seq<Download>,
                        later: seq<nat>, rest: seq<Download>)
    requires chunks != [] && chunks[0].body.Ok? && after == before + chunks[0].body.value
    requires |first| == |saved| && (first == [] || (first == [1] && saved == [saved[0]] && saved[0].downloadedBytes == after))
    requires |later| == |rest|
    requires forall i :: 0 <= i < |later| ==> 1 <= later[i] < |chunks|
    requires forall i :: 0 <= i < |later| ==> rest[i].downloadedBytes == after + Bytes(chunks[1..][..later[i]])
    ensures var ks := first + Shifted(later);
      var saves := saved + rest;
      forall j :: 0 <= j < |ks| ==> ks[j] <= |chunks| && saves[j].downloadedBytes == before + Bytes(chunks[..ks[j]])
  {
    var ks := first + Shifted(later);
    var saves := saved + rest;
    forall j | 0 <= j < |ks| ensures ks[j] <= |chunks| && saves[j].downloadedBytes == before + Bytes(chunks[..ks[j]]) {
      if j < |first| {
        BytesOfPrefix(chunks, 0);
      } else {
        ShiftedAt(first, later, j);
        BytesOfPrefix(chunks, later[j - |first|]);
      }
    }
  }

  /**
   * Each checkpoint records the byte count the worker had reached at its
   * save point: the lengths of the chunks up to and including that one.
   */
  lemma {:induction false} CheckpointsCountChunks(disk: Disk, id: string, total: nat, p: Progress, chunks: seq<Chunk>)
    ensures var r := Stream(disk, id, total, p, chunks);
      var ks := SavePoints(disk, id, total, p, chunks);
      && |ks| == |r.saves|
      && forall j :: 0 <= j < |ks| ==> r.saves[j].downloadedBytes == p.downloaded + Bytes(chunks[..ks[j]])
    decreases |chunks|
  {
    if chunks != [] {
      var s := ChunkStep(disk, id, total, p, chunks[0]);
      if s.Next? {
        ChunkStepGoesOn(disk, id, total, p, chunks[0]);
        StreamStep(disk, id, total, p, chunks);
        SavePointsStep(disk, id, total, p, chunks);
        CheckpointsCountChunks(s.disk, id, total, s.p, chunks[1..]);
        CountsCarryOver(chunks, p.downloaded, s.p.downloaded, if s.saved == [] then [] else [1], s.saved,
                        SavePoints(s.disk, id, total, s.p, chunks[1..]), Stream(s.disk, id, total, s.p, chunks[1..]).saves);
      }
    }
  }

  /**
   * The timing step for one save point after the first chunk: a first chunk
   * saved exactly when it is due after `startMs`, and a save point due
   * among the rest of the chunks from `nextMs`, the clock after the first
   * chunk, give a save point due among all the chunks from `startMs`.
   */
  lemma DueShifts(chunks: seq<Chunk>, startMs: nat, nextMs: nat, first: seq<nat>, later: seq<nat>, j: nat)
    requires chunks != []
    requires first == [] ==> nextMs == startMs && chunks[0].clockMs < startMs + CheckpointMs
    requires first != [] ==> first == [1] && nextMs == chunks[0].clockMs
    requires forall i :: 0 <= i < |later| ==> 1 <= later[i] < |chunks|
    requires |first| <= j < |first| + |later|
    requires DueAt(nextMs, chunks[1..], later, j - |first|)
    ensures var ks := first + Shifted(later);
      1 <= ks[j] <= |chunks| && DueAt(startMs, chunks, ks, j)
  {
    var ks := first + Shifted(later);
    var tail := chunks[1..];
    var i := j - |first|;
    ShiftedAt(first, later, j);
    assert chunks[ks[j] - 1] == tail[later[i] - 1];
    if i > 0 {
      ShiftedAt(first, later, j - 1);
      assert chunks[ks[j - 1] - 1] == tail[later[i - 1] - 1];
    }
    var previous := PreviousSaveMs(startMs, chunks, ks, j);
    assert previous == PreviousSaveMs(nextMs, tail, later, i);
    forall k | PreviousPoint(ks, j) <= k < ks[j] - 1 ensures chunks[k].clockMs < previous + CheckpointMs {
      if k > 0 {
        assert chunks[k] == tail[k - 1];
      }
    }
  }

  /**
   * The timing step: a first chunk that is saved exactly when it is due
   * after `startMs`, followed by save points that fall due among the rest of
   * the chunks from `nextMs`, the clock after the first chunk, gives save
   * points that fall due among all the chunks from `startMs`.
   */
  lemma DueCarriesOver(chunks: seq<Chunk>, startMs: nat, nextMs: nat, first: seq<nat>, later: seq<nat>)
    requires chunks != []
    requires first == [] ==> nextMs == startMs && chunks[0].clockMs < startMs + CheckpointMs
    requires first != [] ==> first == [1] && nextMs == chunks[0].clockMs && chunks[0].clockMs >= startMs + CheckpointMs
    requires forall i :: 0 <= i < |later| ==> 1 <= later[i] < |chunks|
    requires FallDue(nextMs, chunks[1..], later)
    ensures var ks := first + Shifted(later);
      (forall j :: 0 <= j < |ks| ==> 1 <= ks[j] <= |chunks|) && FallDue(startMs, chunks, ks)
  {
    var ks := first + Shifted(later);
    forall j | 0 <= j < |ks| ensures 1 <= ks[j] <= |chunks| && DueAt(startMs, chunks, ks, j) {
      if j < |first| {
        assert ks[j] == 1 && PreviousPoint(ks, j) == 0;
      } else {
        DueShifts(chunks, startMs, nextMs, first, later, j);
      }
    }
  }

  /**
   * A checkpoint is saved at the first chunk whose clock reading is at least
   * 500 ms past the previous checkpoint (or the loop's start): the chunk at
   * each save point is due, and none of the chunks since the previous one was.
   */
  lemma {:induction false} CheckpointsFallDue(disk: Disk, id: string, total: nat, p: Progress, chunks: seq<Chunk>)
    ensures FallDue(p.lastMs, chunks, SavePoints(disk, id, total, p, chunks))
    decreases |chunks|
  {
    if chunks != [] {
      var s := ChunkStep(disk, id, total, p, chunks[0]);
      if s.Next? {
        ChunkStepGoesOn(disk, id, total, p, chunks[0]);
        SavePointsStep(disk, id, total, p, chunks);
        CheckpointsFallDue(s.disk, id, total, s.p, chunks[1..]);
        DueCarriesOver(chunks, p.lastMs, s.p.lastMs, if s.saved == [] then [] else [1],
                       SavePoints(s.disk, id, total, s.p, chunks[1..]));
      }
    }
  }

  /**
   * A worker whose record nobody else writes is never cancelled: the reloads
   * only ever see its own checkpoints.
   */
  lemma {:induction false} UndisturbedIsNeverCancelled(disk: Disk, id: string, total: nat, p: Progress, chunks: seq<Chunk>)
    requires forall k :: 0 <= k < |chunks| ==> chunks[k].others == [] && chunks[k].racing == []
    requires p.local.id == id && p.local.status != Cancelled
    requires Lookup(disk, id).None? || Lookup(disk, id).value.status != Cancelled
    ensures Stream(disk, id, total, p, chunks).outcome != Err(CancelledError)
    decreases |chunks|
  {
    if chunks != [] {
      assert ApplyAll(disk, chunks[0].others) == disk && Landed(disk, chunks[0]) == disk;
      match ChunkStep(disk, id, total, p, chunks[0])
      case Stop(_) =>
        ChunkStepStops(disk, id, total, p, chunks[0]);
      case Next(next, q, _) =>
        ChunkStepGoesOn(disk, id, total, p, chunks[0]);
        UndisturbedIsNeverCancelled(next, id, total, q, chunks[1..]);
    }
  }

  /**
   * A cancellation that is in the store when a checkpoint falls due stops the
   * transfer there, before anything is saved.
   */
  lemma CancelStopsAtCheckpoint(disk: Disk, id: string, total: nat, p: Progress, chunks: seq<Chunk>)
    requires chunks != [] && chunks[0].body.Ok? && chunks[0].writeError.None?
    requires chunks[0].clockMs >= p.lastMs + CheckpointMs
    requires Lookup(ApplyAll(disk, chunks[0].others), id).Some?
    requires Lookup(ApplyAll(disk, chunks[0].others), id).value.status == Cancelled
    ensures var r := Stream(disk, id, total, p, chunks);
      r.outcome == Err(CancelledError) && r.saves == [] && r.local == p.local &&
      r.disk == Landed(disk, chunks[0])
  {
  }

  /**
   * A cancellation that lands after a checkpoint's reload and before its save
   * is lost: the checkpoint saves the worker's copy, with its old status, over
   * it, and the transfer goes on.
   */
  lemma RacingCancelIsOverwritten(disk: Disk, id: string, total: nat, p: Progress, c: Chunk)
    requires p.local.id == id && p.local.status != Cancelled
    requires c.body.Ok? && c.writeError.None? && c.clockMs >= p.lastMs + CheckpointMs
    requires Lookup(ApplyAll(disk, c.others), id).None? || Lookup(ApplyAll(disk, c.others), id).value.status != Cancelled
    requires Lookup(Landed(disk, c), id).Some? && Lookup(Landed(disk, c), id).value.status == Cancelled
    ensures var s := ChunkStep(disk, id, total, p, c);
      && s.Next? && s.disk == Saved(Landed(disk, c), s.p.local)
      && Lookup(s.disk, id) == Some(s.p.local) && s.p.local.status == p.local.status
  {
  }

  /** Where the loop stands before chunk `k`: its store and state. */
  datatype At = At(disk: Disk, p: Progress)

  /** The store and loop state before chunk `k`, or None when an earlier chunk ended the transfer. */
  function Reached(disk: Disk, id: string, total: nat, p: Progress, chunks: seq<Chunk>, k: nat): Option<At>
    requires k <= |chunks|
    decreases k
  {
    if k == 0 then Some(At(disk, p))
    else
      var s := ChunkStep(disk, id, total, p, chunks[0]);
      if s.Stop? then None else Reached(s.disk, id, total, s.p, chunks[1..], k - 1)
  }

  /** From `at`, chunk `c` makes a checkpoint due whose reload finds the job Cancelled. */
  predicate ReloadFindsCancelled(at: At, id: string, c: Chunk) {
    var reloaded := Lookup(ApplyAll(at.disk, c.others), id);
    c.body.Ok? && c.writeError.None? && c.clockMs >= at.p.lastMs + CheckpointMs &&
    reloaded.Some? && reloaded.value.status == Cancelled
  }

  /** Some chunk that the loop reaches makes a checkpoint whose reload finds the job Cancelled. */
  ghost predicate CancelledAtSomeReload(disk: Disk, id: string, total: nat, p: Progress, chunks: seq<Chunk>) {
    exists k :: 0 <= k < |chunks| && Reached(disk, id, total, p, chunks, k).Some? &&
      ReloadFindsCancelled(Reached(disk, id, total, p, chunks, k).value, id, chunks[k])
  }

  /** The chunk loop ends with "Cancelled" exactly when one of its checkpoints' reloads finds the job Cancelled. */
  lemma {:induction false} StreamCancelledByReload(disk: Disk, id: string, total: nat, p: Progress, chunks: seq<Chunk>)
    ensures Stream(disk, id, total, p, chunks).outcome == Err(CancelledError) <==>
      CancelledAtSomeReload(disk, id, total, p, chunks)
    decreases |chunks|
  {
    if chunks != [] {
      var s := ChunkStep(disk, id, total, p, chunks[0]);
      assert Reached(disk, id, total, p, chunks, 0) == Some(At(disk, p));
      if s.Stop? {
        ChunkStepStops(disk, id, total, p, chunks[0]);
        StreamStop(disk, id, total, p, chunks);
        if CancelledAtSomeReload(disk, id, total, p, chunks) {
          var k :| 0 <= k < |chunks| && Reached(disk, id, total, p, chunks, k).Some? &&
            ReloadFindsCancelled(Reached(disk, id, total, p, chunks, k).value, id, chunks[k]);
          assert k == 0;
        }
      } else {
        StreamNext(disk, id, total, p, chunks, []);
        StreamCancelledByReload(s.disk, id, total, s.p, chunks[1..]);
        var tail := chunks[1..];
        if Stream(disk, id, total, p, chunks).outcome == Err(CancelledError) {
          var k :| 0 <= k < |tail| && Reached(s.disk, id, total, s.p, tail, k).Some? &&
            ReloadFindsCancelled(Reached(s.disk, id, total, s.p, tail, k).value, id, tail[k]);
          assert Reached(disk, id, total, p, chunks, k + 1) == Reached(s.disk, id, total, s.p, tail, k);
          assert chunks[k + 1] == tail[k];
        }
        if CancelledAtSomeReload(disk, id, total, p, chunks) {
          var k :| 0 <= k < |chunks| && Reached(disk, id, total, p, chunks, k).Some? &&
            ReloadFindsCancelled(Reached(disk, id, total, p, chunks, k).value, id, chunks[k]);
          assert k != 0;
          assert Reached(disk, id, total, p, chunks, k) == Reached(s.disk, id, total, s.p, tail, k - 1);
          assert chunks[k] == tail[k - 1];
        }
      }
    }
  }

  /**
   * The final record is Cancelled exactly when the reply streamed, the file
   * was created, and then one of the checkpoints' reloads found the job
   * Cancelled.
   */
  lemma TransferCancelledByReload(disk: Disk, id: string, start: Download, reply: Reply, createError: Option<string>,
                                  startMs: nat, chunks: seq<Chunk>)
    ensures var t := Transfer(disk, id, start, reply, createError, startMs, chunks);
      Finished(t.local, t.outcome).status == Cancelled <==>
        && reply.Streaming? && createError.None?
        && CancelledAtSomeReload(disk, id, TotalSize(reply.contentLength, start), Progress(start, 0, startMs, 0), chunks)
  {
    var t := Transfer(disk, id, start, reply, createError, startMs, chunks);
    match reply
    case RequestFailed(e) =>
      assert t.outcome.error[0] == 'R';
    case HttpError(status) =>
      assert t.outcome.error[0] == 'H';
    case Streaming(contentLength) =>
      if createError.Some? {
        assert t.outcome.error[0] == 'F';
      } else {
        StreamCancelledByReload(disk, id, TotalSize(contentLength, start), Progress(start, 0, startMs, 0), chunks);
      }
  }

  /** The prefixes of the transfer's error messages, one per way a transfer can fail. */
  const FailurePrefixes: seq<string> :=
    ["Request failed: ", "HTTP error: ", "Failed to create file: ", "Download error: ", "Write error: "]

  /**
   * The worker's final record: the same job with no pid and no speed;
   * Completed exactly when the transfer succeeded, and then with every byte
   * of its recorded size counted; Cancelled only once the reply streamed and
   * the file was created (never for a failed request or file creation);
   * Failed otherwise, with a reason naming how the transfer failed.
   */
  lemma FinalRecord(disk: Disk, id: string, start: Download, reply: Reply, createError: Option<string>,
                    startMs: nat, chunks: seq<Chunk>)
    requires start.id == id && PidMatchesStatus(start)
    ensures var t := Transfer(disk, id, start, reply, createError, startMs, chunks);
      var final := Finished(t.local, t.outcome);
      && SameJob(start, final) && final.pid == None && final.speed == Idle
      && (final.status == Completed <==> t.outcome.Ok?)
      && (final.status == Completed ==> final.downloadedBytes == final.totalBytes)
      && (final.status == Cancelled ==> reply.Streaming? && createError.None?)
      && (final.status.Failed? ==>
            exists prefix :: prefix in FailurePrefixes && StartsWith(final.status.reason, prefix))
  {
    var t := Transfer(disk, id, start, reply, createError, startMs, chunks);
    match reply
    case RequestFailed(e) =>
      assert t.outcome.error[0] == 'R';
      assert StartsWith(t.outcome.error, FailurePrefixes[0]);
    case HttpError(status) =>
      assert t.outcome.error[0] == 'H';
      assert StartsWith(t.outcome.error, FailurePrefixes[1]);
    case Streaming(contentLength) =>
      if createError.Some? {
        assert t.outcome.error[0] == 'F';
        assert StartsWith(t.outcome.error, FailurePrefixes[2]);
      } else {
        var p := Progress(start, 0, startMs, 0);
        StreamErrors(disk, id, TotalSize(contentLength, start), p, chunks);
        StreamKeepsInvariants(disk, id, TotalSize(contentLength, start), p, chunks);
        if t.outcome.Err? && t.outcome.error != CancelledError {
          if StartsWith(t.outcome.error, "Download error: ") {
            assert FailurePrefixes[3] == "Download error: ";
          } else {
            assert FailurePrefixes[4] == "Write error: ";
          }
        }
      }
  }

  /** While every chunk arrives, the bytes add up chunk by chunk. */
  lemma {:induction false} BytesAppend(chunks: seq<Chunk>, c: Chunk)
    requires forall k :: 0 <= k < |chunks| ==> chunks[k].body.Ok?
    requires c.body.Ok?
    ensures Bytes(chunks + [c]) == Bytes(chunks) + c.body.value
  {
    if chunks == [] {
      assert [c][1..] == [];
    } else {
      assert (chunks + [c])[1..] == chunks[1..] + [c];
      BytesAppend(chunks[1..], c);
    }
  }

  /** When a chunk lets the loop go on, the transfer is that step followed by the rest. */
  lemma StreamNext(disk: Disk, id: string, total: nat, p: Progress, chunks: seq<Chunk>, before: seq<Download>)
    requires chunks != [] && ChunkStep(disk, id, total, p, chunks[0]).Next?
    ensures var s := ChunkStep(disk, id, total, p, chunks[0]);
      var here := Stream(disk, id, total, p, chunks);
      var rest := Stream(s.disk, id, total, s.p, chunks[1..]);
      here.(saves := before + here.saves) == rest.(saves := (before + s.saved) + rest.saves)
  {
  }

  /** When a chunk ends the transfer, its end is the transfer's. */
  lemma StreamStop(disk: Disk, id: string, total: nat, p: Progress, chunks: seq<Chunk>)
    requires chunks != [] && ChunkStep(disk, id, total, p, chunks[0]).Stop?
    ensures Stream(disk, id, total, p, chunks) == ChunkStep(disk, id, total, p, chunks[0]).end
  {
  }

  /** Other processes' whole-record writes land on the store, in order. */
  method LandWrites(store: JobStore, ws: seq<Write>)
    requires store.Valid()
    modifies store
    ensures store.Valid()
    ensures store.entries == ApplyAll(old(store.entries), ws)
    ensures old(store.Consistent()) ==> store.Consistent()
  {
    InterleavingKeepsPidInvariant(store.entries, ws);
    store.entries := ApplyAll(store.entries, ws);
  }

  /**
   * A checkpoint (the reload and the progress save, with the writes `racing`
   * landing between them): it reports the cancellation when the reloaded
   * record says Cancelled, and otherwise saves the worker's copy with the new
   * counters over whatever `racing` wrote.
   */
  method Checkpoint(store: JobStore, id: string, download: Download, downloaded: nat, total: nat, speed: Rate,
                    racing: seq<Write>)
    returns (cancelled: bool, saved: Download)
    requires store.Valid() && download.id == id && PidMatchesStatus(download)
    modifies store
    ensures store.Valid()
    ensures cancelled <==> old(store.Load(id)).Some? && old(store.Load(id)).value.status == Cancelled
    ensures cancelled ==> store.entries == ApplyAll(old(store.entries), racing)
    ensures !cancelled ==>
      && saved == Progressed(download, downloaded, total, speed)
      && store.entries == Saved(ApplyAll(old(store.entries), racing), saved)
    ensures old(store.Consistent()) ==> store.Consistent()
  {
    var current := store.Load(id);
    LandWrites(store, racing);
    if current.Some? && current.value.status == Cancelled {
      return true, download;
    }
    saved := Progressed(download, downloaded, total, speed);
    store.Save(saved);
    cancelled := false;
  }

  /**
   * One trip round the chunk loop: the chunk's read and write, the count, and
   * the checkpoint when 500 ms have passed since the last one. `stop` is the
   * transfer's outcome when this chunk ends it; otherwise `q` is the new loop
   * state and `saved` the checkpoint written, if any.
   */
  method ReceiveChunk(store: JobStore, id: string, total: nat, p: Progress, chunk: Chunk)
    returns (stop: Option<Result<()>>, q: Progress, saved: seq<Download>)
    requires store.Valid() && p.local.id == id && PidMatchesStatus(p.local)
    modifies store
    ensures store.Valid()
    ensures var s := ChunkStep(old(store.entries), id, total, p, chunk);
      && (stop.Some? <==> s.Stop?)
      && (s.Stop? ==> stop.value == s.end.outcome && store.entries == s.end.disk && s.end.local == p.local)
      && (s.Next? ==> store.entries == s.disk && q == s.p && saved == s.saved)
    ensures old(store.Consistent()) ==> store.Consistent()
  {
    // The writes other processes made while this chunk was in flight.
    LandWrites(store, chunk.others);
    q, saved := p, [];
    if chunk.body.Err? {
      LandWrites(store, chunk.racing);
      return Some(Err("Download error: " + chunk.body.error)), q, saved;
    }
    if chunk.writeError.Some? {
      LandWrites(store, chunk.racing);
      return Some(Err("Write error: " + chunk.writeError.value)), q, saved;
    }
    var downloaded := p.downloaded + chunk.body.value;
    q := p.(downloaded := downloaded);
    if chunk.clockMs >= p.lastMs + CheckpointMs {
      var cancelled, local := Checkpoint(store, id, p.local, downloaded, total,
                                         Rate(downloaded - p.lastBytes, chunk.clockMs - p.lastMs), chunk.racing);
      if cancelled {
        return Some(Err(CancelledError)), q, saved;
      }
      q, saved := Progress(local, downloaded, chunk.clockMs, downloaded), [local];
    } else {
      LandWrites(store, chunk.racing);
    }
    stop := None;
  }

  /**
   * The chunk loop of `run_background_download`, from the loop state `start`,
   * recording `total` at checkpoints. Returns the transfer's outcome, the
   * worker's copy of its record and the checkpoints it saved.
   */
  method StreamChunks(store: JobStore, id: string, total: nat, start: Progress, chunks: seq<Chunk>)
    returns (outcome: Result<()>, download: Download, checkpoints: seq<Download>)
    requires store.Valid() && start.local.id == id && PidMatchesStatus(start.local)
    modifies store
    ensures store.Valid()
    ensures var r := Stream(old(store.entries), id, total, start, chunks);
      store.entries == r.disk && outcome == r.outcome && download == r.local && checkpoints == r.saves
    ensures old(store.Consistent()) ==> store.Consistent()
  {
    var p := start;
    checkpoints := [];
    ghost var r := Stream(store.entries, id, total, start, chunks);
    var i := 0;
    while i < |chunks|
      invariant i <= |chunks| && store.Valid()
      invariant forall k :: 0 <= k < i ==> chunks[k].body.Ok?
      invariant p.downloaded == start.downloaded + Bytes(chunks[..i])
      invariant p.local.id == id && PidMatchesStatus(p.local)
      invariant
        var rest := Stream(store.entries, id, total, p, chunks[i..]);
        r == rest.(saves := checkpoints + rest.saves)
      invariant old(store.Consistent()) ==> store.Consistent()
    {
      assert chunks[i..][0] == chunks[i] && chunks[i..][1..] == chunks[i + 1..];
      if ChunkStep(store.entries, id, total, p, chunks[i]).Stop? {
        ChunkStepStops(store.entries, id, total, p, chunks[i]);
        StreamStop(store.entries, id, total, p, chunks[i..]);
      } else {
        ChunkStepGoesOn(store.entries, id, total, p, chunks[i]);
        StreamNext(store.entries, id, total, p, chunks[i..], checkpoints);
      }
      var stop, q, saved := ReceiveChunk(store, id, total, p, chunks[i]);
      if stop.Some? {
        return stop.value, p.local, checkpoints;
      }
      assert chunks[..i + 1] == chunks[..i] + [chunks[i]];
      BytesAppend(chunks[..i], chunks[i]);
      p, checkpoints := q, checkpoints + saved;
      i := i + 1;
    }
    return Ok(()), p.local, checkpoints;
  }

  /**
   * `run_background_download`. `found` is false when the job's record cannot
   * be loaded; the worker then writes nothing. `saves` lists the records it
   * wrote, in order; `fileRemoved` tells whether it deleted the target file.
   */
  method RunWorker(store: JobStore, id: string, ownPid: nat, reply: Reply, createError: Option<string>,
                   startMs: nat, chunks: seq<Chunk>)
    returns (found: bool, outcome: Result<()>, saves: seq<Download>, fileRemoved: bool)
    requires store.Valid()
    modifies store
    ensures store.Valid()
    ensures found <==> old(store.Load(id)).Some?
    ensures !found ==> store.entries == old(store.entries) && saves == [] && !fileRemoved
    ensures found ==>
      var start := Claimed(old(store.Load(id)).value, ownPid);
      var t := Transfer(Saved(old(store.entries), start), id, start, reply, createError, startMs, chunks);
      && outcome == t.outcome
      && saves == [start] + t.saves + [Finished(t.local, t.outcome)]
      && store.entries == Saved(t.disk, Finished(t.local, t.outcome))
      && fileRemoved == (t.outcome == Err(CancelledError))
    ensures old(store.Consistent()) ==> store.Consistent()
  {
    var record := store.Load(id);
    if record.None? {
      return false, Ok(()), [], false;
    }
    found := true;
    var download := Claimed(record.value, ownPid);
    store.Save(download);
    var checkpoints: seq<Download> := [];
    var result: Result<()>;
    if reply.RequestFailed? {
      result := Err("Request failed: " + reply.error);
    } else if reply.HttpError? {
      result := Err("HTTP error: " + reply.status);
    } else if createError.Some? {
      result := Err("Failed to create file: " + createError.value);
    } else {
      var totalSize := TotalSize(reply.contentLength, download);
      result, download, checkpoints := StreamChunks(store, id, totalSize, Progress(download, 0, startMs, 0), chunks);
    }
    saves := [Claimed(record.value, ownPid)] + checkpoints;
    download := Finished(download, result);
    fileRemoved := result == Err(CancelledError);
    store.Save(download);
    saves := saves + [download];
    outcome := result;
  }
}
