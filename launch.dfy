/**
 * Starting the downloads of a processed magnet: for each resolved link, in
 * order, derive the job id, save the new Pending job, and spawn its worker;
 * the spawner records the child's pid.
 *
 * The clock readings and the spawn results are inputs, one per link. Deriving
 * an id panics when byte 10 of the filename falls inside a character; the
 * model stops launching at that link.
 */
module Launch {
  import opened Wrappers
  import opened Text
  import opened Jobs
  import opened Store
  import opened Remote

  /** The two clock readings taken for one job: milliseconds for its id, seconds for `started_at`. */
  datatype Stamp = Stamp(millis: nat, secs: nat)

  /** The Pending job for one resolved link, saved in the current directory. */
  function JobFor(link: Resolved, targetDir: string, stamp: Stamp): Download
    requires HasIdFragment(link.filename)
  {
    NewDownload(JobId(stamp.millis, link.filename), link.filename, link.url, targetDir, link.size, stamp.secs)
  }

  /** `job` is the job created for `link` with the clock readings `stamp`. */
  predicate IsJobFor(job: Download, link: Resolved, targetDir: string, stamp: Stamp) {
    HasIdFragment(link.filename) && job == JobFor(link, targetDir, stamp)
  }

  /** The spawner's write: the job claimed for the child when it started, nothing when spawning failed. */
  function Spawned(disk: Disk, job: Download, child: Option<nat>): Disk {
    if child.Some? then Saved(disk, Claimed(job, child.value)) else disk
  }

  /**
   * Jobs launched in different milliseconds get different ids; two links
   * launched within one millisecond collide exactly when their filenames share
   * the first ten bytes.
   */
  lemma DistinctClocksGiveDistinctIds(links: seq<Resolved>, targetDir: string, stamps: seq<Stamp>)
    requires |stamps| == |links|
    requires forall k :: 0 <= k < |links| ==> HasIdFragment(links[k].filename)
    requires forall i, j :: 0 <= i < j < |links| ==> stamps[i].millis != stamps[j].millis
    ensures forall i, j :: 0 <= i < j < |links| ==>
      JobFor(links[i], targetDir, stamps[i]).id != JobFor(links[j], targetDir, stamps[j]).id
  {
    forall i, j | 0 <= i < j < |links| {
      JobIdEquality(stamps[i].millis, links[i].filename, stamps[j].millis, links[j].filename);
    }
  }

  /** The store after launching `jobs`, one after the other. */
  function Launched(disk: Disk, jobs: seq<Download>, children: seq<Option<nat>>): Disk
    requires |children| == |jobs|
    decreases |jobs|
  {
    if jobs == [] then disk
    else
      var n := |jobs| - 1;
      Spawned(Saved(Launched(disk, jobs[..n], children[..n]), jobs[n]), jobs[n], children[n])
  }

  /** Launching one more job: save it, then record its worker. */
  lemma LaunchedOneMore(disk: Disk, jobs: seq<Download>, job: Download, children: seq<Option<nat>>)
    requires |jobs| < |children|
    ensures Launched(disk, jobs + [job], children[..|jobs| + 1]) ==
      Spawned(Saved(Launched(disk, jobs, children[..|jobs|]), job), job, children[|jobs|])
  {
    assert (jobs + [job])[..|jobs|] == jobs;
    assert children[..|jobs| + 1][..|jobs|] == children[..|jobs|];
  }

  /** The record a launched job is left with: claimed when its worker was spawned, Pending otherwise. */
  function LaunchedRecord(job: Download, child: Option<nat>): Download {
    if child.Some? then Claimed(job, child.value) else job
  }

  /** Launching keeps the store well keyed and every record's pid matching its status. */
  lemma {:induction false} LaunchKeepsInvariants(disk: Disk, jobs: seq<Download>, children: seq<Option<nat>>)
    requires |children| == |jobs|
    requires forall k :: 0 <= k < |jobs| ==> PidMatchesStatus(jobs[k])
    ensures WellKeyed(disk) ==> WellKeyed(Launched(disk, jobs, children))
    ensures PidsConsistent(disk) ==> PidsConsistent(Launched(disk, jobs, children))
    decreases |jobs|
  {
    if jobs != [] {
      var n := |jobs| - 1;
      LaunchKeepsInvariants(disk, jobs[..n], children[..n]);
    }
  }

  /** Launching leaves every id that no launched job has as it was. */
  lemma {:induction false} LaunchedElsewhere(disk: Disk, jobs: seq<Download>, children: seq<Option<nat>>, id: string)
    requires |children| == |jobs|
    requires forall k :: 0 <= k < |jobs| ==> jobs[k].id != id
    ensures Lookup(Launched(disk, jobs, children), id) == Lookup(disk, id)
    decreases |jobs|
  {
    if jobs != [] {
      var n := |jobs| - 1;
      assert forall k :: 0 <= k < n ==> jobs[..n][k] == jobs[k];
      LaunchedElsewhere(disk, jobs[..n], children[..n], id);
    }
  }

  /**
   * When the launched ids are distinct, each job is found under its id,
   * claimed for its worker if one was spawned and Pending otherwise.
   */
  lemma {:induction false} LaunchedHere(disk: Disk, jobs: seq<Download>, children: seq<Option<nat>>, k: nat)
    requires |children| == |jobs| && k < |jobs|
    requires forall i, j :: 0 <= i < j < |jobs| ==> jobs[i].id != jobs[j].id
    ensures Lookup(Launched(disk, jobs, children), jobs[k].id) == Some(LaunchedRecord(jobs[k], children[k]))
    decreases |jobs|
  {
    var n := |jobs| - 1;
    if k < n {
      var before := jobs[..n];
      assert before[k] == jobs[k] && children[..n][k] == children[k];
      assert forall i, j :: 0 <= i < j < n ==> before[i].id != before[j].id by {
        forall i, j | 0 <= i < j < n ensures before[i].id != before[j].id {
          assert before[i] == jobs[i] && before[j] == jobs[j];
        }
      }
      LaunchedHere(disk, before, children[..n], k);
      assert jobs[n].id != jobs[k].id;
    }
  }

  /** `spawn_background_download`: on a started child, save the job as Downloading with the child's pid. */
  method Spawn(store: JobStore, download: Download, child: Option<nat>)
    requires store.Valid()
    modifies store
    ensures store.Valid()
    ensures store.entries == Spawned(old(store.entries), download, child)
    ensures old(store.Consistent()) ==> store.Consistent()
  {
    if child.Some? {
      store.Save(Claimed(download, child.value));
    }
  }

  /** One iteration of the launch loop: save the new job, then spawn its worker. */
  method LaunchOne(store: JobStore, download: Download, child: Option<nat>)
    requires store.Valid() && PidMatchesStatus(download)
    modifies store
    ensures store.Valid()
    ensures store.entries == Spawned(Saved(old(store.entries), download), download, child)
    ensures old(store.Consistent()) ==> store.Consistent()
  {
    store.Save(download);
    Spawn(store, download, child);
  }

  /**
   * The launch loop of `main`. `launched` is how many links were started:
   * all of them, or those before the first whose id cannot be derived;
   * `jobs` are the jobs created for them.
   */
  method LaunchAll(store: JobStore, links: seq<Resolved>, targetDir: string, stamps: seq<Stamp>,
                   children: seq<Option<nat>>) returns (launched: nat, jobs: seq<Download>)
    requires store.Valid() && |stamps| == |links| && |children| == |links|
    modifies store
    ensures store.Valid()
    ensures launched <= |links| && |jobs| == launched
    ensures forall k :: 0 <= k < launched ==>
      IsJobFor(jobs[k], links[k], targetDir, stamps[k])
    ensures launched < |links| ==> !HasIdFragment(links[launched].filename)
    ensures store.entries == Launched(old(store.entries), jobs, children[..launched])
    ensures old(store.Consistent()) ==> store.Consistent()
  {
    ghost var disk := store.entries;
    ghost var consistent := store.Consistent();
    launched, jobs := 0, [];
    while launched < |links| && HasIdFragment(links[launched].filename)
      invariant launched <= |links| && |jobs| == launched && store.Valid()
      invariant forall k :: 0 <= k < launched ==> IsJobFor(jobs[k], links[k], targetDir, stamps[k])
      invariant store.entries == Launched(disk, jobs, children[..launched])
      invariant consistent ==> store.Consistent()
    {
      var download := JobFor(links[launched], targetDir, stamps[launched]);
      LaunchOne(store, download, children[launched]);
      LaunchedOneMore(disk, jobs, download, children);
      jobs := jobs + [download];
      launched := launched + 1;
    }
  }
}
