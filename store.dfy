/**
 * The job store: one file per job in the downloads directory, named after the
 * job id. A file either parses as a record or does not; readers treat an
 * unparsable file as absent. Every write replaces a whole record.
 */
module Store {
  import opened Wrappers
  import opened Jobs

  /** One file of the downloads directory. */
  datatype Entry = Stored(download: Download) | Unreadable

  /** The downloads directory, by job id. */
  type Disk = map<string, Entry>

  /** Every readable record sits in the file named after its own id. */
  predicate WellKeyed(disk: Disk) {
    forall id :: id in disk && disk[id].Stored? ==> disk[id].download.id == id
  }

  /** The key invariant over the whole directory. */
  predicate PidsConsistent(disk: Disk) {
    forall id :: id in disk && disk[id].Stored? ==> PidMatchesStatus(disk[id].download)
  }

  function Lookup(disk: Disk, id: string): Option<Download> {
    if id in disk && disk[id].Stored? then Some(disk[id].download) else None
  }

  function Saved(disk: Disk, d: Download): Disk {
    disk[d.id := Stored(d)]
  }

  function Deleted(disk: Disk, id: string): Disk {
    disk - {id}
  }

  /** The records that parse, among the files named in `ids`. */
  ghost function ReadableAmong(disk: Disk, ids: set<string>): set<Download> {
    set id | id in ids && id in disk && disk[id].Stored? :: disk[id].download
  }

  ghost function Readable(disk: Disk): set<Download> {
    ReadableAmong(disk, disk.Keys)
  }

  /**
   * A save is read back whole by the next load of its id, leaves every other
   * id as it was, and keeps the directory well keyed.
   */
  lemma LoadAfterSave(disk: Disk, d: Download, other: string)
    ensures Lookup(Saved(disk, d), d.id) == Some(d)
    ensures other != d.id ==> Lookup(Saved(disk, d), other) == Lookup(disk, other)
    ensures WellKeyed(disk) ==> WellKeyed(Saved(disk, d))
  {
  }

  /** A delete makes its id absent, touches no other id, and is silent when the id is absent. */
  lemma LoadAfterDelete(disk: Disk, id: string, other: string)
    ensures Lookup(Deleted(disk, id), id) == None
    ensures other != id ==> Lookup(Deleted(disk, id), other) == Lookup(disk, other)
    ensures id !in disk ==> Deleted(disk, id) == disk
  {
  }

  // ---------------------------------------------------------------------------
  // Interleavings of whole-record writes by the spawner, the workers and the
  // dashboard, which share nothing but this directory.

  datatype Write = Save(site: WriteSite) | Delete(id: string)

  function Apply(disk: Disk, w: Write): Disk {
    match w
    case Save(site) => Saved(disk, SiteRecord(site))
    case Delete(id) => Deleted(disk, id)
  }

  function ApplyAll(disk: Disk, ws: seq<Write>): Disk
    decreases |ws|
  {
    if ws == [] then disk else ApplyAll(Apply(disk, ws[0]), ws[1..])
  }

  /**
   * Whatever order the processes' writes land in, every readable record has a
   * pid exactly when it is Downloading, provided the directory started so.
   */
  lemma {:induction false} InterleavingKeepsPidInvariant(disk: Disk, ws: seq<Write>)
    ensures PidsConsistent(disk) ==> PidsConsistent(ApplyAll(disk, ws))
    ensures WellKeyed(disk) ==> WellKeyed(ApplyAll(disk, ws))
    decreases |ws|
  {
    if ws != [] {
      var next := Apply(disk, ws[0]);
      assert PidsConsistent(disk) ==> PidsConsistent(next);
      assert WellKeyed(disk) ==> WellKeyed(next);
      InterleavingKeepsPidInvariant(next, ws[1..]);
    }
  }

  // ---------------------------------------------------------------------------
  // `sort_by_key(|dl| dl.started_at)`

  predicate SortedByStart(s: seq<Download>) {
    forall i, j :: 0 <= i < j < |s| ==> s[i].startedAt <= s[j].startedAt
  }

  function InsertByStart(d: Download, s: seq<Download>): (r: seq<Download>)
    ensures multiset(r) == multiset(s) + multiset{d}
    ensures forall x :: x in r ==> x in s || x == d
  {
    if s == [] then [d]
    else if d.startedAt < s[0].startedAt then [d] + s
    else
      assert s == [s[0]] + s[1..];
      [s[0]] + InsertByStart(d, s[1..])
  }

  lemma {:induction false} InsertKeepsSorted(d: Download, s: seq<Download>)
    requires SortedByStart(s)
    ensures SortedByStart(InsertByStart(d, s))
  {
    if s != [] && d.startedAt >= s[0].startedAt {
      var rest := InsertByStart(d, s[1..]);
      InsertKeepsSorted(d, s[1..]);
      forall x | x in rest ensures s[0].startedAt <= x.startedAt {
        if x != d {
          var k :| 0 <= k < |s[1..]| && s[1..][k] == x;
          assert s[k + 1] == x;
        }
      }
      var r := [s[0]] + rest;
      forall i, j | 0 <= i < j < |r| ensures r[i].startedAt <= r[j].startedAt {
        if i == 0 {
          assert r[j] == rest[j - 1] && r[j] in rest;
        } else {
          assert r[i] == rest[i - 1] && r[j] == rest[j - 1];
        }
      }
    }
  }

  function SortByStart(s: seq<Download>): (r: seq<Download>)
    ensures multiset(r) == multiset(s)
    ensures SortedByStart(r)
  {
    if s == [] then []
    else
      assert s == s[..|s| - 1] + [s[|s| - 1]];
      var sorted := SortByStart(s[..|s| - 1]);
      InsertKeepsSorted(s[|s| - 1], sorted);
      InsertByStart(s[|s| - 1], sorted)
  }

  /** Reading one more file adds its record, if it parses, to what has been read. */
  lemma ReadOneMore(disk: Disk, seen: set<string>, id: string)
    requires WellKeyed(disk) && id in disk && id !in seen
    ensures disk[id].Stored? ==>
      multiset(ReadableAmong(disk, seen + {id})) == multiset(ReadableAmong(disk, seen)) + multiset{disk[id].download}
    ensures disk[id].Unreadable? ==> ReadableAmong(disk, seen + {id}) == ReadableAmong(disk, seen)
  {
    var before := ReadableAmong(disk, seen);
    if disk[id].Stored? {
      var d := disk[id].download;
      assert ReadableAmong(disk, seen + {id}) == before + {d};
      assert d !in before;
      assert multiset(before + {d}) == multiset(before) + multiset{d};
    } else {
      assert ReadableAmong(disk, seen + {id}) == before;
    }
  }

  // ---------------------------------------------------------------------------

  /** The store as one process sees it: its operations read and write the directory. */
  class JobStore {
    var entries: Disk

    ghost predicate Valid()
      reads this
    {
      WellKeyed(entries)
    }

    ghost predicate Consistent()
      reads this
    {
      PidsConsistent(entries)
    }

    constructor (disk: Disk)
      requires WellKeyed(disk)
      ensures Valid() && entries == disk
    {
      entries := disk;
    }

    /** `load_download`: the record in the file named `id`, or None when it is missing or unparsable. */
    function Load(id: string): (r: Option<Download>)
      requires Valid()
      reads this
      ensures r.None? <==> id !in entries || entries[id] == Unreadable
      ensures r.Some? ==> r.value.id == id && entries[id] == Stored(r.value)
    {
      Lookup(entries, id)
    }

    /** `save_download`: create or overwrite the whole record under its id. */
    method Save(d: Download)
      requires Valid()
      modifies this
      ensures Valid()
      ensures entries == Saved(old(entries), d)
      ensures Load(d.id) == Some(d)
      ensures old(Consistent()) && PidMatchesStatus(d) ==> Consistent()
    {
      entries := entries[d.id := Stored(d)];
    }

    /** `delete_download`: remove the file; nothing happens when it is absent. */
    method Delete(id: string)
      requires Valid()
      modifies this
      ensures Valid()
      ensures entries == Deleted(old(entries), id)
      ensures Load(id) == None
      ensures old(Consistent()) ==> Consistent()
    {
      entries := entries - {id};
    }

    /**
     * `load_all_downloads`: every record that parses, each once, ordered by
     * start time. The directory listing's order is unspecified; the loop picks
     * the files in an arbitrary order.
     */
    method LoadAll() returns (r: seq<Download>)
      requires Valid()
      ensures SortedByStart(r)
      ensures multiset(r) == multiset(Readable(entries))
      ensures forall d :: d in r ==> Load(d.id) == Some(d)
    {
      var remaining := entries.Keys;
      var found: seq<Download> := [];
      ghost var seen: set<string> := {};
      while remaining != {}
        invariant remaining + seen == entries.Keys && remaining !! seen
        invariant multiset(found) == multiset(ReadableAmong(entries, seen))
        decreases |remaining|
      {
        var id :| id in remaining;
        ReadOneMore(entries, seen, id);
        if entries[id].Stored? {
          found := found + [entries[id].download];
        }
        remaining := remaining - {id};
        seen := seen + {id};
      }
      assert seen == entries.Keys;
      r := SortByStart(found);
      forall d | d in r ensures Load(d.id) == Some(d) {
        assert d in multiset(Readable(entries));
      }
    }
  }
}
