/**
 * The dashboard (`lj dl`): repair the records of workers that died, list the
 * jobs by start time, then read commands from standard input: `c <n>` cancels
 * job n, `r <n>` removes it, `C` clears every finished job and starts over,
 * `q` quits.
 *
 * The lines read, and the set of pids for which a null signal succeeds, are
 * inputs; the SIGTERMs sent are the `signalled` results.
 */
module Dashboard {
  import opened Wrappers
  import opened Text
  import opened Jobs
  import opened Store

  // ---------------------------------------------------------------------------
  // Reconciliation: the first thing the dashboard does.

  function ReconciledEntry(e: Entry, alive: set<nat>): Entry {
    match e
    case Stored(d) => Stored(Reconciled(d, alive))
    case Unreadable => Unreadable
  }

  /** The directory once every record of a dead worker has been repaired. */
  function ReconciledDisk(disk: Disk, alive: set<nat>): (r: Disk)
    ensures r.Keys == disk.Keys
  {
    map id | id in disk :: ReconciledEntry(disk[id], alive)
  }

  /** No readable record is Downloading for a worker that is gone. */
  predicate Settled(disk: Disk, alive: set<nat>) {
    forall id :: id in disk && disk[id].Stored? ==> !NeedsRepair(disk[id].download, alive)
  }

  /**
   * After reconciliation no record names a dead worker, so a second pass
   * changes nothing; a directory with no such record is left as it is. The
   * directory stays well keyed and every pid keeps matching its status.
   */
  lemma ReconcileSettles(disk: Disk, alive: set<nat>)
    ensures Settled(ReconciledDisk(disk, alive), alive)
    ensures ReconciledDisk(ReconciledDisk(disk, alive), alive) == ReconciledDisk(disk, alive)
    ensures Settled(disk, alive) ==> ReconciledDisk(disk, alive) == disk
    ensures WellKeyed(disk) ==> WellKeyed(ReconciledDisk(disk, alive))
    ensures PidsConsistent(disk) ==> PidsConsistent(ReconciledDisk(disk, alive))
  {
    var r := ReconciledDisk(disk, alive);
    forall id | id in disk && disk[id].Stored?
      ensures !NeedsRepair(r[id].download, alive)
      ensures PidMatchesStatus(disk[id].download) ==> PidMatchesStatus(r[id].download)
    {
      ReconcileChangesOnlyDeadWorkers(disk[id].download, alive);
    }
  }

  /** A worker that is still named by a Downloading record after reconciliation was named before, and is alive. */
  ghost predicate LiveWorker(disk: Disk, pid: nat) {
    exists id :: id in disk && disk[id].Stored? &&
      disk[id].download.status == Downloading && disk[id].download.pid == Some(pid)
  }

  lemma ReconciledWorkersAreAlive(disk: Disk, alive: set<nat>, pid: nat)
    requires LiveWorker(ReconciledDisk(disk, alive), pid)
    ensures pid in alive && LiveWorker(disk, pid)
  {
    var r := ReconciledDisk(disk, alive);
    var id :| id in r && r[id].Stored? && r[id].download.status == Downloading && r[id].download.pid == Some(pid);
    ReconcileChangesOnlyDeadWorkers(disk[id].download, alive);
  }

  /**
   * The dashboard's first pass: every record that says Downloading but whose
   * worker does not answer a null signal is repaired and saved.
   */
  method Reconcile(store: JobStore, alive: set<nat>)
    requires store.Valid()
    modifies store
    ensures store.Valid()
    ensures store.entries == ReconciledDisk(old(store.entries), alive)
  {
    ghost var disk := store.entries;
    var downloads := store.LoadAll();
    ghost var done: set<string> := {};
    var i := 0;
    while i < |downloads|
      invariant i <= |downloads| && store.Valid()
      invariant store.entries.Keys == disk.Keys
      invariant forall id :: id in disk ==>
        store.entries[id] == if id in done then ReconciledEntry(disk[id], alive) else disk[id]
      invariant forall k :: 0 <= k < i ==> downloads[k].id in done
    {
      var dl := downloads[i];
      assert disk[dl.id] == Stored(dl);
      if dl.status == Downloading && dl.pid.Some? && dl.pid.value !in alive {
        store.Save(Repaired(dl));
      }
      done := done + {dl.id};
      i := i + 1;
    }
    forall id | id in disk ensures store.entries[id] == ReconciledEntry(disk[id], alive) {
      if disk[id].Stored? {
        var d := disk[id].download;
        assert d in multiset(Readable(disk));
        var k :| 0 <= k < |downloads| && downloads[k] == d;
      }
    }
  }

  // ---------------------------------------------------------------------------
  // Commands.

  /** One read from standard input: an I/O error, or a line. */
  datatype Line = ReadError | Read(text: string)

  datatype Command =
    | Blank
    | Quit
    | ClearAll
    | CancelNth(n: nat)
    | RemoveNth(n: nat)
    | Ignored   // 'c' or 'r' without a listed number
    | Unknown

  /**
   * How a line is understood with `listed` jobs on screen: only its trimmed
   * first character chooses the command, and the number after 'c' or 'r' must
   * parse as a `usize` and name a listed job.
   */
  function ParseCommand(line: string, listed: nat): (c: Command)
    ensures c.CancelNth? || c.RemoveNth? ==> 1 <= c.n <= listed
  {
    var input := Trim(line);
    if input == [] then Blank
    else if input[0] == 'q' || input[0] == 'Q' then Quit
    else if input[0] == 'C' then ClearAll
    else if input[0] == 'c' || input[0] == 'r' then
      match ParseU64(Trim(input[1..]))
      case Some(n) =>
        if 0 < n <= listed then (if input[0] == 'c' then CancelNth(n) else RemoveNth(n)) else Ignored
      case None => Ignored
    else Unknown
  }

  /** A line holding 'c' or 'r' and a number, padded with whitespace, trims to that key and that number. */
  lemma NumberedLine(key: char, n: nat, left: string, middle: string, right: string)
    requires key == 'c' || key == 'r'
    requires n <= U64Max
    requires AllWhitespace(left) && AllWhitespace(middle) && AllWhitespace(right)
    ensures var input := Trim(left + [key] + middle + Decimal(n) + right);
      input != [] && input[0] == key && ParseU64(Trim(input[1..])) == Some(n)
  {
    var number := Decimal(n);
    var word := [key] + middle + number;
    assert left + [key] + middle + number + right == left + word + right;
    assert IsDigit(number[|number| - 1]);
    TrimPadded(left, word, right);
    assert word[1..] == middle + number + [];
    TrimPadded(middle, number, []);
    DecimalRoundTrip(n);
  }

  /**
   * 'c' or 'r' and a listed number, with any whitespace around and between
   * them (the line break included), select that job.
   */
  lemma CommandOfNumber(key: char, n: nat, listed: nat, left: string, middle: string, right: string)
    requires key == 'c' || key == 'r'
    requires 1 <= n <= listed <= U64Max
    requires AllWhitespace(left) && AllWhitespace(middle) && AllWhitespace(right)
    ensures ParseCommand(left + [key] + middle + Decimal(n) + right, listed) ==
      if key == 'c' then CancelNth(n) else RemoveNth(n)
  {
    NumberedLine(key, n, left, middle, right);
  }

  /** A number that names no listed job is ignored. */
  lemma UnlistedNumbersAreIgnored(key: char, n: nat, listed: nat, left: string, middle: string, right: string)
    requires key == 'c' || key == 'r'
    requires n <= U64Max && (n == 0 || n > listed)
    requires AllWhitespace(left) && AllWhitespace(middle) && AllWhitespace(right)
    ensures ParseCommand(left + [key] + middle + Decimal(n) + right, listed) == Ignored
  {
    NumberedLine(key, n, left, middle, right);
  }

  /** The command word spelled out is not understood: only `c <n>` cancels. */
  lemma SpelledOutCommandIsIgnored(listed: nat)
    ensures ParseCommand("cancel 1", listed) == Ignored
  {
    TrimPadded([], "cancel 1", []);
    assert "cancel 1"[1..] == [] + "ancel 1" + [];
    TrimPadded([], "ancel 1", []);
  }

  /** What one command did to the directory, and the pids it sent SIGTERM to. */
  datatype Effect = Effect(disk: Disk, signalled: seq<nat>)

  /**
   * `c <n>`: the job is read again; when it is Downloading it is saved
   * Cancelled with its pid cleared, and its worker is sent SIGTERM.
   */
  function CancelEffect(disk: Disk, id: string): Effect {
    match Lookup(disk, id)
    case Some(d) =>
      if d.status == Downloading then
        Effect(Saved(disk, CancelledJob(d)), if d.pid.Some? then [d.pid.value] else [])
      else Effect(disk, [])
    case None => Effect(disk, [])
  }

  /** The ids `C` deletes: the listed jobs whose listed status is terminal. */
  function FinishedIds(listing: seq<Download>): set<string> {
    set d | d in listing && IsTerminal(d.status) :: d.id
  }

  /** What the loop makes of one read: a read error ends it as `q` does. */
  function CommandOf(line: Line, listed: nat): (c: Command)
    ensures c.CancelNth? || c.RemoveNth? ==> 1 <= c.n <= listed
  {
    match line
    case ReadError => Quit
    case Read(text) => ParseCommand(text, listed)
  }

  /** A numbered command names one of `listed` jobs. */
  predicate InRange(c: Command, listed: nat) {
    c.CancelNth? || c.RemoveNth? ==> 1 <= c.n <= listed
  }

  /** The commands the lines `input` stand for, with `listed` jobs on screen. */
  function Parsed(input: seq<Line>, listed: nat): (commands: seq<Command>)
    ensures |commands| == |input|
    ensures forall k :: 0 <= k < |input| ==> commands[k] == CommandOf(input[k], listed)
    ensures forall k :: 0 <= k < |input| ==> InRange(commands[k], listed)
  {
    seq(|input|, k requires 0 <= k < |input| => CommandOf(input[k], listed))
  }

  /** The change a command makes when it does not end the loop. */
  function Executed(disk: Disk, listing: seq<Download>, command: Command): Effect
    requires InRange(command, |listing|)
  {
    match command
    case CancelNth(n) => CancelEffect(disk, listing[n - 1].id)
    case RemoveNth(n) => Effect(Deleted(disk, listing[n - 1].id), [])
    case _ => Effect(disk, [])
  }

  /** How a run of commands on one listing ends. `next` holds the lines left when `C` starts the dashboard over. */
  datatype Session = Session(disk: Disk, signalled: seq<nat>, next: Option<seq<Line>>)

  /** The command loop, on the lines `input` and the commands they stand for. */
  function Run(disk: Disk, listing: seq<Download>, input: seq<Line>, commands: seq<Command>): Session
    requires |commands| == |input|
    requires forall k :: 0 <= k < |commands| ==> InRange(commands[k], |listing|)
    decreases |input|
  {
    if input == [] then Session(disk, [], None)
    else if commands[0] == Quit then Session(disk, [], None)
    else if commands[0] == ClearAll then Session(disk - FinishedIds(listing), [], Some(input[1..]))
    else
      var e := Executed(disk, listing, commands[0]);
      var rest := Run(e.disk, listing, input[1..], commands[1..]);
      rest.(signalled := e.signalled + rest.signalled)
  }

  function Commands(disk: Disk, listing: seq<Download>, input: seq<Line>): Session {
    Run(disk, listing, input, Parsed(input, |listing|))
  }

  // ---------------------------------------------------------------------------
  // What the dashboard may do to one file.

  function Get(disk: Disk, id: string): Option<Entry> {
    if id in disk then Some(disk[id]) else None
  }

  /**
   * A file is left as it is, deleted, or, when it held a Downloading record,
   * saved with that record Cancelled.
   */
  predicate Allowed(before: Option<Entry>, after: Option<Entry>) {
    || after == before
    || after == None
    || (&& before.Some? && before.value.Stored? && before.value.download.status == Downloading
        && after == Some(Stored(CancelledJob(before.value.download))))
  }

  ghost predicate AllAllowed(before: Disk, after: Disk) {
    forall id :: Allowed(Get(before, id), Get(after, id))
  }

  /** Two runs of allowed changes are one. */
  lemma AllowedTransitive(a: Disk, b: Disk, c: Disk)
    requires AllAllowed(a, b) && AllAllowed(b, c)
    ensures AllAllowed(a, c)
  {
    forall id ensures Allowed(Get(a, id), Get(c, id)) {
      assert Allowed(Get(a, id), Get(b, id)) && Allowed(Get(b, id), Get(c, id));
    }
  }

  /**
   * Allowed changes name no new worker and repair nothing, so a settled
   * directory stays settled.
   */
  lemma AllowedKeepsWorkers(before: Disk, after: Disk, alive: set<nat>, pid: nat)
    requires AllAllowed(before, after)
    ensures LiveWorker(after, pid) ==> LiveWorker(before, pid)
    ensures Settled(before, alive) ==> Settled(after, alive)
  {
    if LiveWorker(after, pid) {
      var id :| id in after && after[id].Stored? &&
        after[id].download.status == Downloading && after[id].download.pid == Some(pid);
      assert Allowed(Get(before, id), Get(after, id));
    }
    forall id | id in after && after[id].Stored? && Settled(before, alive)
      ensures !NeedsRepair(after[id].download, alive)
    {
      assert Allowed(Get(before, id), Get(after, id));
    }
  }

  /**
   * One command only makes allowed changes, keeps the directory well keyed
   * and every pid matching its status, and signals only a worker that a
   * Downloading record names.
   */
  lemma ExecutedIsAllowed(disk: Disk, listing: seq<Download>, command: Command)
    requires WellKeyed(disk)
    requires InRange(command, |listing|)
    ensures var e := Executed(disk, listing, command);
      && AllAllowed(disk, e.disk)
      && WellKeyed(e.disk)
      && (PidsConsistent(disk) ==> PidsConsistent(e.disk))
      && (forall p :: p in e.signalled ==> LiveWorker(disk, p))
  {
    var e := Executed(disk, listing, command);
    if command.CancelNth? {
      var id := listing[command.n - 1].id;
      forall other ensures Allowed(Get(disk, other), Get(e.disk, other)) {
        if other == id && Lookup(disk, id).Some? {
          assert disk[id].download.id == id;
        }
      }
    }
  }

  /**
   * The commands on one listing only make allowed changes, keep the
   * directory well keyed and every pid matching its status, signal only
   * workers that Downloading records name, and start over on fewer lines.
   */
  lemma {:induction false} RunIsAllowed(disk: Disk, listing: seq<Download>, input: seq<Line>, commands: seq<Command>)
    requires WellKeyed(disk)
    requires |commands| == |input|
    requires forall k :: 0 <= k < |commands| ==> InRange(commands[k], |listing|)
    ensures var s := Run(disk, listing, input, commands);
      && AllAllowed(disk, s.disk)
      && WellKeyed(s.disk)
      && (PidsConsistent(disk) ==> PidsConsistent(s.disk))
      && (forall p :: p in s.signalled ==> LiveWorker(disk, p))
      && (s.next.Some? ==> |s.next.value| < |input|)
    decreases |input|
  {
    if input != [] {
      if commands[0] == ClearAll {
        assert AllAllowed(disk, disk - FinishedIds(listing));
      } else if commands[0] != Quit {
        var e := Executed(disk, listing, commands[0]);
        ExecutedIsAllowed(disk, listing, commands[0]);
        RunIsAllowed(e.disk, listing, input[1..], commands[1..]);
        var rest := Run(e.disk, listing, input[1..], commands[1..]);
        AllowedTransitive(disk, e.disk, rest.disk);
        forall p | p in rest.signalled ensures LiveWorker(disk, p) {
          AllowedKeepsWorkers(disk, e.disk, {}, p);
        }
      }
    }
  }

  /** Everything one dashboard run may do, from the directory it started on. */
  ghost predicate Supervised(before: Disk, after: Disk, alive: set<nat>) {
    AllAllowed(ReconciledDisk(before, alive), after)
  }

  // ---------------------------------------------------------------------------
  // The operations.

  /** `c <n>`: read the job again and cancel it when it is Downloading. */
  method CancelJob(store: JobStore, id: string) returns (signalled: seq<nat>)
    requires store.Valid()
    modifies store
    ensures store.Valid()
    ensures Effect(store.entries, signalled) == CancelEffect(old(store.entries), id)
  {
    signalled := [];
    var found := store.Load(id);
    if found.Some? && found.value.status == Downloading {
      var dl := found.value;
      if dl.pid.Some? {
        signalled := [dl.pid.value];
      }
      store.Save(CancelledJob(dl));
    }
  }

  /** `C`: delete every listed job whose listed status is terminal. */
  method ClearFinished(store: JobStore, listing: seq<Download>)
    requires store.Valid()
    modifies store
    ensures store.Valid()
    ensures store.entries == old(store.entries) - FinishedIds(listing)
  {
    ghost var disk := store.entries;
    var i := 0;
    while i < |listing|
      invariant i <= |listing| && store.Valid()
      invariant store.entries == disk - FinishedIds(listing[..i])
    {
      var dl := listing[i];
      if IsTerminal(dl.status) {
        store.Delete(dl.id);
      }
      assert listing[..i + 1] == listing[..i] + [dl];
      assert FinishedIds(listing[..i + 1]) ==
        FinishedIds(listing[..i]) + if IsTerminal(dl.status) then {dl.id} else {};
      i := i + 1;
    }
    assert listing[..i] == listing;
  }

  /** `c <n>` and `r <n>`; every other command that does not end the loop changes nothing. */
  method ExecuteCommand(store: JobStore, listing: seq<Download>, command: Command) returns (signalled: seq<nat>)
    requires store.Valid()
    requires InRange(command, |listing|)
    modifies store
    ensures store.Valid()
    ensures Effect(store.entries, signalled) == Executed(old(store.entries), listing, command)
  {
    signalled := [];
    match command {
      case CancelNth(n) =>
        signalled := CancelJob(store, listing[n - 1].id);
      case RemoveNth(n) =>
        store.Delete(listing[n - 1].id);
      case _ =>
    }
  }

  /**
   * The command loop on one listing: it stops at a read error, at `q`, at
   * `C` (after clearing), or when the lines run out.
   */
  method RunCommands(store: JobStore, listing: seq<Download>, input: seq<Line>)
    returns (signalled: seq<nat>, next: Option<seq<Line>>)
    requires store.Valid()
    modifies store
    ensures store.Valid()
    ensures Session(store.entries, signalled, next) == Commands(old(store.entries), listing, input)
  {
    ghost var disk := store.entries;
    ghost var commands := Parsed(input, |listing|);
    signalled := [];
    var i := 0;
    while i < |input|
      invariant i <= |input| && store.Valid()
      invariant Commands(disk, listing, input) ==
        var rest := Run(store.entries, listing, input[i..], commands[i..]);
        rest.(signalled := signalled + rest.signalled)
    {
      assert input[i..][1..] == input[i + 1..] && commands[i..][1..] == commands[i + 1..];
      var command := CommandOf(input[i], |listing|);
      if command == Quit {
        return signalled, None;
      }
      if command == ClearAll {
        ClearFinished(store, listing);
        return signalled, Some(input[i + 1..]);
      }
      var sent := ExecuteCommand(store, listing, command);
      signalled := signalled + sent;
      i := i + 1;
    }
    next := None;
  }

  /**
   * What `show_downloads` does from the directory `disk` on the lines
   * `input`, showing the listings `listings` in turn, to end with the
   * directory `after`, having signalled `signalled`: it reconciles, lists
   * every readable record oldest first, stops if there is none, and runs the
   * commands on the listing; `C` starts it over from the directory the
   * commands left, on the lines that follow.
   */
  ghost predicate Supervision(disk: Disk, alive: set<nat>, input: seq<Line>, listings: seq<seq<Download>>,
                              after: Disk, signalled: seq<nat>)
    decreases |listings|
  {
    && listings != []
    && var reconciled := ReconciledDisk(disk, alive);
       var listing := listings[0];
       && SortedByStart(listing) && multiset(listing) == multiset(Readable(reconciled))
       && if listing == [] then |listings| == 1 && after == reconciled && signalled == []
          else
            var s := Commands(reconciled, listing, input);
            if s.next.None? then |listings| == 1 && after == s.disk && signalled == s.signalled
            else
              && |s.signalled| <= |signalled| && signalled[..|s.signalled|] == s.signalled
              && Supervision(s.disk, alive, s.next.value, listings[1..], after, signalled[|s.signalled|..])
  }

  /**
   * `show_downloads`: reconcile, list, and run the commands; `C` starts it
   * over on the lines that are left. Every change it makes to a file is a
   * repair of a dead worker's record, a cancellation or a deletion, and it
   * sends SIGTERM only to live workers of Downloading records.
   */
  method ShowDownloads(store: JobStore, alive: set<nat>, input: seq<Line>)
    returns (signalled: seq<nat>, ghost listings: seq<seq<Download>>)
    requires store.Valid()
    modifies store
    ensures store.Valid()
    ensures Supervision(old(store.entries), alive, input, listings, store.entries, signalled)
    ensures Supervised(old(store.entries), store.entries, alive)
    ensures old(store.Consistent()) ==> store.Consistent()
    ensures forall p :: p in signalled ==> p in alive && LiveWorker(old(store.entries), p)
    decreases |input|
  {
    ghost var disk := store.entries;
    ghost var consistent := store.Consistent();
    Reconcile(store, alive);
    ReconcileSettles(disk, alive);
    ghost var reconciled := store.entries;
    var downloads := store.LoadAll();
    listings := [downloads];
    if downloads == [] {
      return [], listings;
    }
    var next;
    signalled, next := RunCommands(store, downloads, input);
    RunIsAllowed(reconciled, downloads, input, Parsed(input, |downloads|));
    forall p | p in signalled ensures p in alive && LiveWorker(disk, p) {
      ReconciledWorkersAreAlive(disk, alive, p);
    }
    if next.Some? {
      ghost var middle := store.entries;
      AllowedKeepsWorkers(reconciled, middle, alive, 0);
      ReconcileSettles(middle, alive);
      var more, later := ShowDownloads(store, alive, next.value);
      AllowedTransitive(reconciled, middle, store.entries);
      forall p | p in more ensures p in alive && LiveWorker(disk, p) {
        AllowedKeepsWorkers(reconciled, middle, alive, p);
        ReconciledWorkersAreAlive(disk, alive, p);
      }
      ghost var first := signalled;
      signalled := signalled + more;
      listings := listings + later;
      assert signalled[..|first|] == first && signalled[|first|..] == more && listings[1..] == later;
    }
  }
}
