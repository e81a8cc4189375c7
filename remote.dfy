/**
 * Driving one magnet through the remote service: wait for the file list,
 * choose files, wait for the remote download, and resolve its links.
 *
 * Every answer of the service is an input: a poll is the elapsed time at the
 * top of the loop together with what `get_torrent_info` returned, and each
 * link's unrestrict-and-probe result comes from a function of the link.
 */
module Remote {
  import opened Wrappers
  import opened Text

  datatype TorrentFile = TorrentFile(id: nat, path: string, bytes: nat)

  /** What `torrents/info` reports (progress, speed and seeders only feed a display line). */
  datatype TorrentInfo = TorrentInfo(status: string, files: Option<seq<TorrentFile>>, links: Option<seq<string>>)

  // ---------------------------------------------------------------------------
  // File selection

  const MinFileBytes: nat := 1_000_000

  /** A candidate file: its lowercased path does not mention "sample" and it is larger than 1 MB. */
  predicate IsValidFile(f: TorrentFile) {
    !Contains(Lowercase(f.path), "sample") && f.bytes > MinFileBytes
  }

  /** The valid files, in the torrent's order. */
  function ValidFiles(files: seq<TorrentFile>): (r: seq<TorrentFile>)
    ensures |r| <= |files|
    ensures forall f :: f in r <==> f in files && IsValidFile(f)
  {
    if files == [] then []
    else (if IsValidFile(files[0]) then [files[0]] else []) + ValidFiles(files[1..])
  }

  function Ids(files: seq<TorrentFile>): seq<nat> {
    seq(|files|, i requires 0 <= i < |files| => files[i].id)
  }

  /**
   * The interactive multi-select: the displayed items the user left checked
   * (every item starts checked), or the prompt's failure.
   */
  datatype Choice = Picked(checked: set<nat>) | PromptFailed(reason: string)

  datatype Selection = Select(ids: seq<nat>) | Abort(message: string, deletesTorrent: bool)

  /** The ids of `valid[from..]` whose positions are checked, in list order. */
  function CheckedIds(valid: seq<TorrentFile>, checked: set<nat>, from: nat): (ids: seq<nat>)
    requires from <= |valid|
    ensures |ids| <= |valid| - from
    ensures ids == [] <==> forall i :: from <= i < |valid| ==> i !in checked
    ensures forall id :: id in ids ==> exists i :: from <= i < |valid| && i in checked && valid[i].id == id
    ensures forall i :: from <= i < |valid| && i in checked ==> valid[i].id in ids
    decreases |valid| - from
  {
    if from == |valid| then []
    else
      var rest := CheckedIds(valid, checked, from + 1);
      var ids := (if from in checked then [valid[from].id] else []) + rest;
      assert forall id :: id in ids ==> id in rest || (from in checked && id == valid[from].id);
      ids
  }

  /** The checked positions between `from` and `to`, in increasing order. */
  function CheckedPositions(checked: set<nat>, from: nat, to: nat): (ps: seq<nat>)
    requires from <= to
    decreases (to as int) - (from as int)
    ensures forall k :: 0 <= k < |ps| ==> from <= ps[k] < to && ps[k] in checked
  {
    if from == to then []
    else (if from in checked then [from] else []) + CheckedPositions(checked, from + 1, to)
  }

  /** Every checked position is listed. */
  lemma {:induction false} CheckedPositionsComplete(checked: set<nat>, from: nat, to: nat)
    requires from <= to
    ensures forall i :: from <= i < to && i in checked ==> i in CheckedPositions(checked, from, to)
    decreases (to as int) - (from as int)
  {
    if from < to {
      CheckedPositionsComplete(checked, from + 1, to);
      var rest := CheckedPositions(checked, from + 1, to);
      var ps := CheckedPositions(checked, from, to);
      assert ps == (if from in checked then [from] else []) + rest;
      forall i | from < i < to && i in checked ensures i in ps {
        assert i in rest;
      }
    }
  }

  predicate Increasing(ps: seq<nat>) {
    forall k, l :: 0 <= k < l < |ps| ==> ps[k] < ps[l]
  }

  /** The listed positions increase. */
  lemma {:induction false} CheckedPositionsIncrease(checked: set<nat>, from: nat, to: nat)
    requires from <= to
    ensures Increasing(CheckedPositions(checked, from, to))
    decreases (to as int) - (from as int)
  {
    if from < to {
      CheckedPositionsIncrease(checked, from + 1, to);
      var rest := CheckedPositions(checked, from + 1, to);
      if from in checked {
        var ps := [from] + rest;
        assert CheckedPositions(checked, from, to) == ps;
        forall k, l | 0 <= k < l < |ps| ensures ps[k] < ps[l] {
          assert ps[l] == rest[l - 1] > from;
          if k > 0 {
            assert ps[k] == rest[k - 1];
          }
        }
      } else {
        assert CheckedPositions(checked, from, to) == rest;
      }
    }
  }

  /** The ids of the files at positions `ps` of `valid`, in that order. */
  function IdsAt(valid: seq<TorrentFile>, ps: seq<nat>): seq<nat>
    requires forall k :: 0 <= k < |ps| ==> ps[k] < |valid|
  {
    if ps == [] then [] else [valid[ps[0]].id] + IdsAt(valid, ps[1..])
  }

  /** The ids submitted for a choice are those of the checked valid files, each once, in list order. */
  lemma {:induction false} CheckedIdsInOrder(valid: seq<TorrentFile>, checked: set<nat>, from: nat)
    requires from <= |valid|
    ensures CheckedIds(valid, checked, from) == IdsAt(valid, CheckedPositions(checked, from, |valid|))
    decreases |valid| - from
  {
    if from < |valid| {
      CheckedIdsInOrder(valid, checked, from + 1);
      var rest := CheckedPositions(checked, from + 1, |valid|);
      var later := CheckedIds(valid, checked, from + 1);
      if from in checked {
        assert CheckedPositions(checked, from, |valid|) == [from] + rest;
        assert ([from] + rest)[1..] == rest;
        assert IdsAt(valid, [from] + rest) == [valid[from].id] + IdsAt(valid, rest);
        assert CheckedIds(valid, checked, from) == [valid[from].id] + later;
      } else {
        assert CheckedPositions(checked, from, |valid|) == rest;
        assert CheckedIds(valid, checked, from) == later;
      }
    }
  }

  /** Which file ids to submit for the torrent's file list and the user's choice. */
  function SelectFiles(files: seq<TorrentFile>, choice: Choice): Selection {
    var valid := ValidFiles(files);
    if |valid| == 1 then Select([valid[0].id])
    else if valid == [] then
      if files == [] then Abort("No files in torrent", false) else Select(Ids(files))
    else
      match choice
      case PromptFailed(reason) => Abort("Selection cancelled: " + reason, false)
      case Picked(checked) =>
        var ids := CheckedIds(valid, checked, 0);
        if ids == [] then Abort("No files selected", true) else Select(ids)
  }

  lemma {:induction false} NoValidFiles(files: seq<TorrentFile>)
    requires forall j :: 0 <= j < |files| ==> !IsValidFile(files[j])
    ensures ValidFiles(files) == []
  {
    if files != [] {
      NoValidFiles(files[1..]);
    }
  }

  lemma {:induction false} OnlyValidFile(files: seq<TorrentFile>, k: nat)
    requires k < |files| && IsValidFile(files[k])
    requires forall j :: 0 <= j < |files| && j != k ==> !IsValidFile(files[j])
    ensures ValidFiles(files) == [files[k]]
  {
    if k == 0 {
      NoValidFiles(files[1..]);
    } else {
      OnlyValidFile(files[1..], k - 1);
    }
  }

  /** Exactly one valid file: it is selected without asking. */
  lemma SingleValidFileIsSelected(files: seq<TorrentFile>, k: nat, choice: Choice)
    requires k < |files| && IsValidFile(files[k])
    requires forall j :: 0 <= j < |files| && j != k ==> !IsValidFile(files[j])
    ensures SelectFiles(files, choice) == Select([files[k].id])
  {
    OnlyValidFile(files, k);
  }

  /** No valid file: every file is selected in the torrent's order, or the torrent has no files. */
  lemma NoValidFileSelectsAll(files: seq<TorrentFile>, choice: Choice)
    requires forall j :: 0 <= j < |files| ==> !IsValidFile(files[j])
    ensures files == [] ==> SelectFiles(files, choice) == Abort("No files in torrent", false)
    ensures files != [] ==> SelectFiles(files, choice) == Select(Ids(files))
  {
    NoValidFiles(files);
  }

  /**
   * Several valid files: the user's checked items are selected in list order;
   * leaving the defaults selects every valid file; unchecking everything
   * deletes the torrent and fails.
   */
  lemma SeveralValidFilesFollowChoice(files: seq<TorrentFile>, checked: set<nat>)
    requires |ValidFiles(files)| > 1
    ensures var valid := ValidFiles(files);
      && (CheckedIds(valid, checked, 0) == [] ==>
            SelectFiles(files, Picked(checked)) == Abort("No files selected", true))
      && (CheckedIds(valid, checked, 0) != [] ==>
            SelectFiles(files, Picked(checked)) == Select(CheckedIds(valid, checked, 0)))
      && ((forall i :: 0 <= i < |valid| ==> i in checked) ==>
            SelectFiles(files, Picked(checked)) == Select(Ids(valid)))
  {
    var valid := ValidFiles(files);
    if forall i :: 0 <= i < |valid| ==> i in checked {
      AllCheckedIsAll(valid, checked, 0);
      assert valid[0..] == valid;
    }
  }

  lemma {:induction false} AllCheckedIsAll(valid: seq<TorrentFile>, checked: set<nat>, from: nat)
    requires from <= |valid|
    requires forall i :: from <= i < |valid| ==> i in checked
    ensures CheckedIds(valid, checked, from) == Ids(valid[from..])
    decreases |valid| - from
  {
    if from < |valid| {
      AllCheckedIsAll(valid, checked, from + 1);
      assert Ids(valid[from..]) == [valid[from].id] + Ids(valid[from + 1..]);
    }
  }

  /**
   * Whatever the choice, only ids of the torrent's own files are submitted,
   * and only valid ones unless no file is valid.
   */
  lemma SelectionIsFromTorrent(files: seq<TorrentFile>, choice: Choice, id: nat)
    requires SelectFiles(files, choice).Select? && id in SelectFiles(files, choice).ids
    ensures exists f :: f in files && f.id == id && (IsValidFile(f) || ValidFiles(files) == [])
  {
    var valid := ValidFiles(files);
    if |valid| == 1 {
      assert valid[0] in files;
    } else if valid == [] {
      var i :| 0 <= i < |files| && Ids(files)[i] == id;
      assert files[i] in files;
    } else {
      var i :| 0 <= i < |valid| && i in choice.checked && valid[i].id == id;
      assert valid[i] in valid;
    }
  }

  /**
   * A torrent with a small sample, one large movie and a tiny info file: the
   * movie is the only valid file and is selected alone.
   */
  lemma SelectionExample(choice: Choice)
    ensures SelectFiles([TorrentFile(1, "sample.mkv", 500), TorrentFile(2, "movie.mkv", 2_000_000),
                         TorrentFile(3, "movie.nfo", 100)], choice) == Select([2])
  {
    var files := [TorrentFile(1, "sample.mkv", 500), TorrentFile(2, "movie.mkv", 2_000_000),
                  TorrentFile(3, "movie.nfo", 100)];
    MovieIsValid();
    assert !IsValidFile(files[0]) && !IsValidFile(files[2]);
    SingleValidFileIsSelected(files, 1, choice);
  }

  lemma MovieIsValid()
    ensures IsValidFile(TorrentFile(2, "movie.mkv", 2_000_000))
  {
    var name := "movie.mkv";
    assert Lowercase(name) == name by {
      forall i | 0 <= i < |name| ensures LowerAscii(name[i]) == name[i] {
      }
    }
    ContainsIffOccurs(name, "sample");
    forall i | 0 <= i <= |name| - 6 ensures !StartsWith(name[i..], "sample") {
      assert name[i..][0] == name[i] != 's';
    }
  }

  // ---------------------------------------------------------------------------
  // Polling

  /** One trip round a polling loop: the elapsed time checked at its top, then the info request's result. */
  datatype Poll = Poll(elapsedMs: nat, info: Result<TorrentInfo>)

  const FilesTimeoutMs: nat := 60_000
  const DownloadTimeoutMs: nat := 600_000

  predicate IsTorrentError(status: string) {
    status == "magnet_error" || status == "dead" || status == "error"
  }

  /** What one trip of `wait_for_files` decides; None means sleep and poll again. */
  function FilesVerdict(p: Poll): Option<Result<seq<TorrentFile>>> {
    if p.elapsedMs > FilesTimeoutMs then Some(Err("Timeout waiting for file list"))
    else match p.info
      case Err(e) => Some(Err(e))
      case Ok(info) =>
        if info.status == "waiting_files_selection" && info.files.Some? then Some(Ok(info.files.value))
        else if IsTorrentError(info.status) then Some(Err("Torrent error: " + info.status))
        else None
  }

  /** What one trip of `wait_for_download` decides; None means sleep and poll again. */
  function DownloadVerdict(p: Poll): Option<Result<seq<string>>> {
    if p.elapsedMs > DownloadTimeoutMs then Some(Err("Timeout waiting for Real-Debrid to process"))
    else match p.info
      case Err(e) => Some(Err(e))
      case Ok(info) =>
        if info.status == "downloaded" then
          if info.links.Some? then Some(Ok(info.links.value)) else Some(Err("No links available"))
        else if IsTorrentError(info.status) then Some(Err("Torrent error: " + info.status))
        else None
  }

  /** The verdict of the first trip that decides anything; None when no trip of `polls` does. */
  function Decide<T>(polls: seq<Poll>, verdict: Poll -> Option<Result<T>>): Option<Result<T>> {
    if polls == [] then None
    else if verdict(polls[0]).Some? then verdict(polls[0])
    else Decide(polls[1..], verdict)
  }

  /** `wait_for_files` over the trips it makes; `at` is the trip that decided. */
  method WaitForFiles(polls: seq<Poll>) returns (r: Option<Result<seq<TorrentFile>>>, at: nat)
    ensures r == Decide(polls, FilesVerdict)
    ensures r.None? ==> forall k :: 0 <= k < |polls| ==> FilesVerdict(polls[k]).None?
    ensures r.Some? ==> at < |polls| && r == FilesVerdict(polls[at]) &&
                        forall k :: 0 <= k < at ==> FilesVerdict(polls[k]).None?
  {
    at := 0;
    while at < |polls|
      invariant at <= |polls|
      invariant Decide(polls, FilesVerdict) == Decide(polls[at..], FilesVerdict)
      invariant forall k :: 0 <= k < at ==> FilesVerdict(polls[k]).None?
    {
      var verdict := FilesVerdict(polls[at]);
      if verdict.Some? {
        return verdict, at;
      }
      assert polls[at..][1..] == polls[at + 1..];
      at := at + 1;
    }
    r := None;
  }

  /** `wait_for_download` over the trips it makes; `at` is the trip that decided. */
  method WaitForDownload(polls: seq<Poll>) returns (r: Option<Result<seq<string>>>, at: nat)
    ensures r == Decide(polls, DownloadVerdict)
    ensures r.None? ==> forall k :: 0 <= k < |polls| ==> DownloadVerdict(polls[k]).None?
    ensures r.Some? ==> at < |polls| && r == DownloadVerdict(polls[at]) &&
                        forall k :: 0 <= k < at ==> DownloadVerdict(polls[k]).None?
  {
    at := 0;
    while at < |polls|
      invariant at <= |polls|
      invariant Decide(polls, DownloadVerdict) == Decide(polls[at..], DownloadVerdict)
      invariant forall k :: 0 <= k < at ==> DownloadVerdict(polls[k]).None?
    {
      var verdict := DownloadVerdict(polls[at]);
      if verdict.Some? {
        return verdict, at;
      }
      assert polls[at..][1..] == polls[at + 1..];
      at := at + 1;
    }
    r := None;
  }

  /**
   * The file wait returns files only from a "waiting_files_selection" answer
   * that carries a list (possibly empty), within 60 s; the same status without
   * a list, like any status that is not an error, keeps it polling.
   */
  lemma FilesWaitDecisions(p: Poll)
    ensures FilesVerdict(p).Some? && FilesVerdict(p).value.Ok? <==>
      p.elapsedMs <= FilesTimeoutMs && p.info.Ok? &&
      p.info.value.status == "waiting_files_selection" && p.info.value.files.Some?
    ensures FilesVerdict(p).None? <==>
      p.elapsedMs <= FilesTimeoutMs && p.info.Ok? && !IsTorrentError(p.info.value.status) &&
      !(p.info.value.status == "waiting_files_selection" && p.info.value.files.Some?)
  {
  }

  /**
   * The completion wait returns the links of a "downloaded" answer, even an
   * empty list, fails with "No links available" when that answer has none,
   * and keeps polling on every status that is neither "downloaded" nor an error.
   */
  lemma DownloadWaitDecisions(p: Poll)
    requires p.elapsedMs <= DownloadTimeoutMs && p.info.Ok?
    ensures p.info.value.status == "downloaded" ==>
      DownloadVerdict(p) == if p.info.value.links.Some? then Some(Ok(p.info.value.links.value))
                            else Some(Err("No links available"))
    ensures p.info.value.status != "downloaded" && !IsTorrentError(p.info.value.status) ==>
      DownloadVerdict(p).None?
  {
  }

  /**
   * Both waits stop on the same three error statuses with the same message,
   * and their time limits are strict: a trip at exactly the limit still asks.
   */
  lemma WaitsShareErrorsAndStrictTimeouts(p: Poll)
    ensures p.elapsedMs <= FilesTimeoutMs && p.info.Ok? && IsTorrentError(p.info.value.status) ==>
      && FilesVerdict(p) == Some(Err("Torrent error: " + p.info.value.status))
      && DownloadVerdict(p) == Some(Err("Torrent error: " + p.info.value.status))
    ensures p.elapsedMs == FilesTimeoutMs && p.info.Ok? ==>
      FilesVerdict(p) != Some(Err("Timeout waiting for file list"))
    ensures p.elapsedMs > FilesTimeoutMs ==> FilesVerdict(p) == Some(Err("Timeout waiting for file list"))
    ensures p.elapsedMs == DownloadTimeoutMs && p.info.Ok? ==>
      DownloadVerdict(p) != Some(Err("Timeout waiting for Real-Debrid to process"))
    ensures p.elapsedMs > DownloadTimeoutMs ==>
      DownloadVerdict(p) == Some(Err("Timeout waiting for Real-Debrid to process"))
  {
    if p.elapsedMs == FilesTimeoutMs && p.info.Ok? {
      assert "Torrent error: " + p.info.value.status != "Timeout waiting for file list" by {
        assert ("Torrent error: " + p.info.value.status)[0] == 'T';
        assert ("Torrent error: " + p.info.value.status)[1] != "Timeout waiting for file list"[1];
      }
    }
    if p.elapsedMs == DownloadTimeoutMs && p.info.Ok? {
      assert "Torrent error: " + p.info.value.status != "Timeout waiting for Real-Debrid to process" by {
        assert ("Torrent error: " + p.info.value.status)[1] != "Timeout waiting for Real-Debrid to process"[1];
      }
    }
  }

  /** Deciding means the first deciding trip decides: later answers are never consulted. */
  lemma {:induction false} DecideIsFirstVerdict<T>(polls: seq<Poll>, verdict: Poll -> Option<Result<T>>, k: nat,
                                                  later: seq<Poll>)
    requires k < |polls| && verdict(polls[k]).Some?
    requires forall j :: 0 <= j < k ==> verdict(polls[j]).None?
    ensures Decide(polls, verdict) == verdict(polls[k])
    ensures Decide(polls[..k + 1] + later, verdict) == verdict(polls[k])
  {
    if k > 0 {
      DecideIsFirstVerdict(polls[1..], verdict, k - 1, later);
      assert (polls[..k + 1] + later)[1..] == polls[1..][..k] + later;
    } else {
      assert (polls[..k + 1] + later)[0] == polls[0];
    }
  }

  // ---------------------------------------------------------------------------
  // Link resolution

  /** The HEAD probe of a direct link: it failed, or it answered with or without a Content-Length. */
  datatype HeadProbe = HeadFailed | HeadAnswered(contentLength: Option<string>)

  /** A successful unrestrict answer, with the HEAD probe of its direct link. */
  datatype Unrestricted = Unrestricted(filename: string, download: string, head: HeadProbe)

  /** One download to start: filename, direct URL, size (0 when unknown). */
  datatype Resolved = Resolved(filename: string, url: string, size: nat)

  /** The size recovered from a HEAD probe: 0 unless it answered with a Content-Length that parses as u64. */
  function ContentLength(head: HeadProbe): (n: nat)
    ensures n <= U64Max
  {
    match head
    case HeadFailed => 0
    case HeadAnswered(None) => 0
    case HeadAnswered(Some(v)) => if ParseU64(v).Some? then ParseU64(v).value else 0
  }

  /** A Content-Length header carrying a 64-bit size gives that size back. */
  lemma ContentLengthOfSize(n: nat)
    requires n <= U64Max
    ensures ContentLength(HeadAnswered(Some(Decimal(n)))) == n
  {
    DecimalRoundTrip(n);
  }

  function ResolvedFrom(u: Unrestricted): Resolved {
    Resolved(u.filename, u.download, ContentLength(u.head))
  }

  /** The downloads obtained from the unrestrict answers: the failures dropped, the rest in order. */
  function Obtained(answers: seq<Result<Unrestricted>>): (r: seq<Resolved>)
    ensures |r| <= |answers|
    ensures r == [] <==> forall i :: 0 <= i < |answers| ==> answers[i].Err?
  {
    if answers == [] then []
    else (if answers[0].Ok? then [ResolvedFrom(answers[0].value)] else []) + Obtained(answers[1..])
  }

  /** Resolution keeps the order of the links: it distributes over concatenation. */
  lemma {:induction false} ObtainedAppend(a: seq<Result<Unrestricted>>, b: seq<Result<Unrestricted>>)
    ensures Obtained(a + b) == Obtained(a) + Obtained(b)
  {
    if a != [] {
      assert (a + b)[1..] == a[1..] + b;
      ObtainedAppend(a[1..], b);
    } else {
      assert a + b == b;
    }
  }

  function Answers(links: seq<string>, unrestrict: string -> Result<Unrestricted>): seq<Result<Unrestricted>> {
    seq(|links|, i requires 0 <= i < |links| => unrestrict(links[i]))
  }

  /**
   * The resolution loop: each link is unrestricted once, failures are dropped
   * with a warning, and the batch fails only when nothing was obtained.
   */
  method ResolveLinks(links: seq<string>, unrestrict: string -> Result<Unrestricted>)
    returns (r: Result<seq<Resolved>>)
    ensures r.Ok? ==> r.value == Obtained(Answers(links, unrestrict)) && r.value != []
    ensures r.Err? <==> forall i :: 0 <= i < |links| ==> unrestrict(links[i]).Err?
    ensures r.Err? ==> r.error == "No download links obtained"
  {
    var obtained: seq<Resolved> := [];
    var i := 0;
    while i < |links|
      invariant i <= |links|
      invariant obtained == Obtained(Answers(links, unrestrict)[..i])
    {
      var answer := unrestrict(links[i]);
      if answer.Ok? {
        obtained := obtained + [ResolvedFrom(answer.value)];
      }
      assert Answers(links, unrestrict)[..i + 1] == Answers(links, unrestrict)[..i] + [answer];
      ObtainedAppend(Answers(links, unrestrict)[..i], [answer]);
      i := i + 1;
    }
    assert Answers(links, unrestrict)[..i] == Answers(links, unrestrict);
    assert forall k :: 0 <= k < |links| ==> Answers(links, unrestrict)[k] == unrestrict(links[k]);
    if obtained == [] {
      r := Err("No download links obtained");
    } else {
      r := Ok(obtained);
    }
  }

  // ---------------------------------------------------------------------------
  // The whole of `process_magnet`

  /**
   * From a magnet to the downloads to start. `added` is the add-magnet answer
   * (the remote torrent id or an error), `selectReply` the file-selection
   * answer. The result is None when the polls run out before a wait decides.
   * `submitted` holds the file ids sent for selection, when they were sent;
   * `torrentDeleted` tells whether the remote torrent was deleted.
   */
  method ProcessMagnet(added: Result<string>, filePolls: seq<Poll>, choice: Choice,
                       selectReply: Result<()>, downloadPolls: seq<Poll>,
                       unrestrict: string -> Result<Unrestricted>)
    returns (r: Option<Result<seq<Resolved>>>, submitted: Option<seq<nat>>, torrentDeleted: bool)
    ensures added.Err? ==> r == Some(Err(added.error)) && submitted.None? && !torrentDeleted
    ensures added.Ok? ==>
      var files := Decide(filePolls, FilesVerdict);
      && (files.None? ==> r.None? && submitted.None? && !torrentDeleted)
      && (files.Some? && files.value.Err? ==> r == Some(Err(files.value.error)) && submitted.None? && !torrentDeleted)
    ensures added.Ok? && Decide(filePolls, FilesVerdict).Some? && Decide(filePolls, FilesVerdict).value.Ok? ==>
      var selection := SelectFiles(Decide(filePolls, FilesVerdict).value.value, choice);
      && (selection.Abort? ==>
            r == Some(Err(selection.message)) && submitted.None? && torrentDeleted == selection.deletesTorrent)
      && (selection.Select? ==> submitted == Some(selection.ids))
      && (selection.Select? && selectReply.Err? ==> r == Some(Err(selectReply.error)) && !torrentDeleted)
      && (selection.Select? && selectReply.Ok? ==>
            var links := Decide(downloadPolls, DownloadVerdict);
            && (links.None? ==> r.None? && !torrentDeleted)
            && (links.Some? && links.value.Err? ==> r == Some(Err(links.value.error)) && !torrentDeleted)
            && (links.Some? && links.value.Ok? ==>
                  var obtained := Obtained(Answers(links.value.value, unrestrict));
                  && torrentDeleted
                  && r == Some(if obtained == [] then Err("No download links obtained") else Ok(obtained))))
    ensures torrentDeleted ==> r.Some? && (r.value == Err("No files selected") || r.value == Err("No download links obtained") || r.value.Ok?)
    ensures r.Some? && r.value.Ok? ==> torrentDeleted && r.value.value != []
  {
    torrentDeleted, submitted := false, None;
    if added.Err? {
      return Some(Err(added.error)), None, false;
    }
    var files, _ := WaitForFiles(filePolls);
    if files.None? {
      return None, None, false;
    }
    if files.value.Err? {
      return Some(Err(files.value.error)), None, false;
    }
    var selection := SelectFiles(files.value.value, choice);
    if selection.Abort? {
      return Some(Err(selection.message)), None, selection.deletesTorrent;
    }
    submitted := Some(selection.ids);
    if selectReply.Err? {
      return Some(Err(selectReply.error)), submitted, false;
    }
    var links, _ := WaitForDownload(downloadPolls);
    if links.None? {
      return None, submitted, false;
    }
    if links.value.Err? {
      return Some(Err(links.value.error)), submitted, false;
    }
    var resolved := ResolveLinks(links.value.value, unrestrict);
    assert forall k :: 0 <= k < |links.value.value| ==>
      Answers(links.value.value, unrestrict)[k] == unrestrict(links.value.value[k]);
    r, torrentDeleted := Some(resolved), true;
  }
}
