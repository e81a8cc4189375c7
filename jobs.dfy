/**
 * The persisted job record (`Download`, `DownloadStatus`), the record that
 * each place in the program writes, and the job id.
 *
 * The key invariant is `PidMatchesStatus`: a record carries a worker pid
 * exactly when its status is Downloading. Every write site produces a record
 * that satisfies it (`SiteRecord`), whatever record it started from.
 */
module Jobs {
  import opened Wrappers
  import opened Text

  datatype DownloadStatus = Pending | Downloading | Completed | Failed(reason: string) | Cancelled

  /**
   * A throughput estimate: `bytes` over `ms` milliseconds. The program keeps
   * the quotient as an f64 in bytes per second; only the display reads it.
   */
  datatype Rate = Rate(bytes: int, ms: nat)

  /** The estimate of a job that is not transferring (0.0 in the program). */
  const Idle: Rate := Rate(0, 1)

  /**
   * One job. Byte counters are unbounded (the program's are u64); `speed` is
   * the last throughput estimate.
   */
  datatype Download = Download(
    id: string,
    filename: string,
    url: string,
    targetDir: string,
    totalBytes: nat,
    downloadedBytes: nat,
    speed: Rate,
    status: DownloadStatus,
    startedAt: nat,
    pid: Option<nat>)

  predicate IsTerminal(s: DownloadStatus) {
    s.Completed? || s.Failed? || s.Cancelled?
  }

  /** A worker pid is recorded exactly while the job is Downloading. */
  predicate PidMatchesStatus(d: Download) {
    d.pid.Some? <==> d.status == Downloading
  }

  /** The fields fixed when the job is created: no write site changes them. */
  predicate SameJob(a: Download, b: Download) {
    a.id == b.id && a.filename == b.filename && a.url == b.url &&
    a.targetDir == b.targetDir && a.startedAt == b.startedAt
  }

  // ---------------------------------------------------------------------------
  // Job id: "{millis}-{first at most 10 bytes of the filename}".

  const IdFragmentBytes: nat := 10

  function Min(a: nat, b: nat): nat {
    if a <= b then a else b
  }

  /** The byte slice taken for the id ends between two characters (otherwise the program panics). */
  predicate HasIdFragment(filename: string) {
    IsCharBoundary(filename, Min(Utf8Length(filename), IdFragmentBytes))
  }

  function IdFragment(filename: string): string
    requires HasIdFragment(filename)
  {
    BytePrefix(filename, Min(Utf8Length(filename), IdFragmentBytes))
  }

  function JobId(millis: nat, filename: string): string
    requires HasIdFragment(filename)
  {
    Decimal(millis) + "-" + IdFragment(filename)
  }

  /**
   * An id is the millisecond count in decimal, a '-', and a prefix of the
   * filename at most ten bytes long.
   */
  lemma JobIdShape(millis: nat, filename: string)
    requires HasIdFragment(filename)
    ensures StartsWith(JobId(millis, filename), Decimal(millis) + "-")
    ensures StartsWith(filename, JobId(millis, filename)[|Decimal(millis)| + 1..])
    ensures Utf8Length(JobId(millis, filename)[|Decimal(millis)| + 1..]) <= IdFragmentBytes
  {
    var id := JobId(millis, filename);
    assert id[..|Decimal(millis)| + 1] == Decimal(millis) + "-";
    assert id[|Decimal(millis)| + 1..] == IdFragment(filename);
  }

  /** An id splits back into its number, the '-' and the fragment. */
  lemma JobIdParts(millis: nat, filename: string)
    requires HasIdFragment(filename)
    ensures var id, n := JobId(millis, filename), |Decimal(millis)|;
      && LeadingDigits(id) == n && id[..n] == Decimal(millis) && id[n + 1..] == IdFragment(filename)
  {
    var a, rest := Decimal(millis), "-" + IdFragment(filename);
    var id := JobId(millis, filename);
    assert id == a + rest;
    LeadingDigitsOfNumber(a, rest);
  }

  /**
   * Two ids are equal exactly when they were made in the same millisecond from
   * filenames with the same first ten bytes: ids are not unique across files
   * that share a ten-byte prefix and are launched within one millisecond.
   */
  lemma JobIdEquality(m1: nat, f1: string, m2: nat, f2: string)
    requires HasIdFragment(f1) && HasIdFragment(f2)
    ensures JobId(m1, f1) == JobId(m2, f2) <==> m1 == m2 && IdFragment(f1) == IdFragment(f2)
  {
    if JobId(m1, f1) == JobId(m2, f2) {
      JobIdParts(m1, f1);
      JobIdParts(m2, f2);
      DecimalInjective(m1, m2);
    }
  }

  /** For an ASCII filename the id is the millisecond count, '-', and the first ten characters. */
  lemma JobIdOfAscii(millis: nat, filename: string)
    requires IsAscii(filename)
    ensures HasIdFragment(filename)
    ensures JobId(millis, filename) == Decimal(millis) + "-" + filename[..Min(|filename|, IdFragmentBytes)]
  {
    AsciiBoundaries(filename, Min(|filename|, IdFragmentBytes));
  }

  // ---------------------------------------------------------------------------
  // The record each write site persists.

  /** The record saved when a resolved link is turned into a job. */
  function NewDownload(id: string, filename: string, url: string, targetDir: string,
                       size: nat, startedAt: nat): (d: Download)
    ensures PidMatchesStatus(d) && d.status == Pending
    ensures d.downloadedBytes == 0 && d.totalBytes == size
  {
    Download(id, filename, url, targetDir, size, 0, Idle, Pending, startedAt, None)
  }

  /**
   * A process takes the job over: the spawner records its child's pid, and the
   * worker records its own pid when it starts.
   */
  function Claimed(d: Download, pid: nat): (r: Download)
    ensures PidMatchesStatus(r) && r.pid == Some(pid)
    ensures SameJob(d, r) && r.downloadedBytes == d.downloadedBytes && r.totalBytes == d.totalBytes
  {
    d.(status := Downloading, pid := Some(pid))
  }

  /** A progress checkpoint: the byte counters and the speed, nothing else. */
  function Progressed(d: Download, downloaded: nat, total: nat, speed: Rate): (r: Download)
    ensures r.downloadedBytes == downloaded && r.totalBytes == total && r.speed == speed
    ensures SameJob(d, r) && r.status == d.status && r.pid == d.pid
    ensures PidMatchesStatus(d) ==> PidMatchesStatus(r)
  {
    d.(downloadedBytes := downloaded, totalBytes := total, speed := speed)
  }

  /** The worker's final record for the outcome of its transfer. */
  function Finished(d: Download, outcome: Result<()>): (r: Download)
    ensures PidMatchesStatus(r) && IsTerminal(r.status) && r.pid == None && r.speed == Idle
    ensures SameJob(d, r) && r.totalBytes == d.totalBytes
    ensures r.status == Completed <==> outcome.Ok?
    ensures r.status == Cancelled <==> outcome == Err("Cancelled")
    ensures r.status.Failed? <==> outcome.Err? && outcome.error != "Cancelled"
    ensures r.status.Failed? ==> r.status.reason == outcome.error
    ensures r.downloadedBytes == if outcome.Ok? then d.totalBytes else d.downloadedBytes
  {
    match outcome
    case Ok(_) => d.(status := Completed, downloadedBytes := d.totalBytes, speed := Idle, pid := None)
    case Err(e) =>
      d.(status := if e == "Cancelled" then Cancelled else Failed(e), speed := Idle, pid := None)
  }

  const ProcessDied: string := "Process died"

  /** The dashboard's repair of a job whose worker is gone. */
  function Repaired(d: Download): (r: Download)
    ensures PidMatchesStatus(r) && r.pid == None
    ensures r.status == Completed <==> d.downloadedBytes >= d.totalBytes && d.totalBytes > 0
    ensures r.status != Completed ==> r.status == Failed(ProcessDied)
    ensures r == d.(status := r.status, pid := None)
  {
    var complete := d.downloadedBytes >= d.totalBytes && d.totalBytes > 0;
    d.(status := if complete then Completed else Failed(ProcessDied), pid := None)
  }

  /** The dashboard's cancellation. */
  function CancelledJob(d: Download): (r: Download)
    ensures PidMatchesStatus(r) && r.status == Cancelled
    ensures r == d.(status := Cancelled, pid := None)
  {
    d.(status := Cancelled, pid := None)
  }

  /**
   * A worker is dead when a null signal to its pid fails; `alive` holds the
   * pids for which it succeeds.
   */
  predicate NeedsRepair(d: Download, alive: set<nat>) {
    d.status == Downloading && d.pid.Some? && d.pid.value !in alive
  }

  function Reconciled(d: Download, alive: set<nat>): Download {
    if NeedsRepair(d, alive) then Repaired(d) else d
  }

  /**
   * Reconciliation changes a record exactly when it is Downloading with a pid
   * whose process is gone; then it ends Completed when every byte arrived
   * (and the size is known), Failed("Process died") otherwise, with its pid
   * cleared and every other field as it was.
   */
  lemma ReconcileChangesOnlyDeadWorkers(d: Download, alive: set<nat>)
    ensures Reconciled(d, alive) != d <==> NeedsRepair(d, alive)
    ensures NeedsRepair(d, alive) ==>
      var r := Reconciled(d, alive);
      && r.pid == None
      && (r.status == Completed <==> d.downloadedBytes >= d.totalBytes && d.totalBytes > 0)
      && (r.status != Completed ==> r.status == Failed(ProcessDied))
      && r == d.(status := r.status, pid := None)
    ensures PidMatchesStatus(d) ==> PidMatchesStatus(Reconciled(d, alive))
  {
    if NeedsRepair(d, alive) {
      assert Reconciled(d, alive).status != d.status;
    }
  }

  /** Every place in the program that saves a job record, with what it saves from. */
  datatype WriteSite =
    | Create(id: string, filename: string, url: string, targetDir: string, size: nat, startedAt: nat)
    | Spawn(record: Download, childPid: nat)
    | WorkerStart(record: Download, ownPid: nat)
    | Checkpoint(record: Download, ownPid: nat, downloaded: nat, total: nat, speed: Rate)
    | WorkerExit(record: Download, outcome: Result<()>)
    | Repair(record: Download)
    | Cancel(record: Download)

  /**
   * The record a write site saves. A checkpoint saves the worker's own copy,
   * which its start claimed for its pid; the remaining sites set status and pid
   * together.
   */
  function SiteRecord(w: WriteSite): (d: Download)
    ensures PidMatchesStatus(d)
  {
    match w
    case Create(id, filename, url, dir, size, at) => NewDownload(id, filename, url, dir, size, at)
    case Spawn(record, pid) => Claimed(record, pid)
    case WorkerStart(record, pid) => Claimed(record, pid)
    case Checkpoint(record, pid, downloaded, total, speed) => Progressed(Claimed(record, pid), downloaded, total, speed)
    case WorkerExit(record, outcome) => Finished(record, outcome)
    case Repair(record) => Repaired(record)
    case Cancel(record) => CancelledJob(record)
  }
}
