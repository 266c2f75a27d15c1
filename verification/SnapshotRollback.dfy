/** Snapshot and rollback around a verify-update task (agent/executor.py). */
module SnapshotRollback {
  import opened Common

  datatype Path = Path(dir: string, name: string)

  /** One manifest entry; no snapshot name means the file did not exist. */
  datatype Entry = Entry(original: Path, snapshotName: Option<string>)

  datatype Result = Succeeded | Failed | Raised

  // ---------------------------------------------------------------- snapshot names

  predicate DigitsOnly(s: string) {
    forall i :: 0 <= i < |s| ==> '0' <= s[i] <= '9'
  }

  function Decimal(n: nat): (s: string)
    ensures s != [] && DigitsOnly(s)
  {
    var last := [('0' as int + n % 10) as char];
    if n < 10 then last else Decimal(n / 10) + last
  }

  function Value(s: string): int {
    if s == [] then 0 else 10 * Value(s[..|s| - 1]) + (s[|s| - 1] as int - '0' as int)
  }

  lemma {:induction false} DecimalReadsBack(n: nat)
    ensures Value(Decimal(n)) == n
  {
    var s := Decimal(n);
    assert s[|s| - 1] as int - '0' as int == n % 10;
    if n >= 10 {
      DecimalReadsBack(n / 10);
      assert s[..|s| - 1] == Decimal(n / 10);
    } else {
      assert s[..|s| - 1] == [];
    }
  }

  const MANIFEST := "snapshot_manifest.json"

  function SnapshotName(index: nat, name: string): string {
    "file_" + Decimal(index) + "_" + name
  }

  /** Whatever the files are called, no two entries share a snapshot name and none is the manifest. */
  lemma SnapshotNamesDistinct(i: nat, a: string, j: nat, b: string)
    ensures SnapshotName(i, a) == SnapshotName(j, b) ==> i == j
    ensures SnapshotName(i, a) != MANIFEST
  {
    var s, t := SnapshotName(i, a), SnapshotName(j, b);
    var m, n := |Decimal(i)|, |Decimal(j)|;
    assert s[5..5 + m] == Decimal(i) && t[5..5 + n] == Decimal(j);
    assert s[5 + m] == '_' && t[5 + n] == '_';
    assert s[0] == 'f' && MANIFEST[0] == 's';
    assert m < n ==> t[5 + m] == Decimal(j)[m];
    assert n < m ==> s[5 + n] == Decimal(i)[n];
    if s == t {
      DecimalReadsBack(i);
      DecimalReadsBack(j);
    }
  }

  // ---------------------------------------------------------------- what a rollback means

  /** The targets as they were before, everything else as the body left it. */
  function Restored(before: map<Path, string>, left: map<Path, string>, targets: seq<Path>)
    : (after: map<Path, string>)
    ensures forall p :: p in targets ==> (p in after <==> p in before) && (p in before ==> after[p] == before[p])
    ensures forall p :: p !in targets ==> (p in after <==> p in left) && (p in left ==> after[p] == left[p])
  {
    map p | p in before.Keys + left.Keys && (if p in targets then p in before else p in left)
      :: if p in targets then before[p] else left[p]
  }

  lemma RestoredStep(before: map<Path, string>, left: map<Path, string>, targets: seq<Path>, p: Path)
    ensures Restored(before, left, targets + [p]) ==
            if p in before then Restored(before, left, targets)[p := before[p]]
            else Restored(before, left, targets) - {p}
  {
  }

  /** The manifest records exactly the targets, and the copies hold their contents. */
  predicate Covers(entries: seq<Entry>, copies: map<string, string>, before: map<Path, string>,
                   targets: seq<Path>)
  {
    && |entries| == |targets|
    && forall i :: 0 <= i < |entries| ==>
         && entries[i].original == targets[i]
         && (targets[i] in before ==>
               && entries[i].snapshotName == Some(SnapshotName(i, targets[i].name))
               && entries[i].snapshotName.value in copies
               && copies[entries[i].snapshotName.value] == before[targets[i]])
         && (targets[i] !in before ==> entries[i].snapshotName.None?)
  }

  /** A copy that the manifest knows of. */
  predicate Recorded(entries: seq<Entry>, name: string) {
    exists i :: 0 <= i < |entries| && entries[i].snapshotName == Some(name)
  }

  lemma RecordedStays(entries: seq<Entry>, e: Entry, name: string)
    ensures Recorded(entries, name) ==> Recorded(entries + [e], name)
    ensures e.snapshotName == Some(name) ==> Recorded(entries + [e], name)
  {
    if i :| 0 <= i < |entries| && entries[i].snapshotName == Some(name) {
      assert (entries + [e])[i].snapshotName == Some(name);
    }
    assert (entries + [e])[|entries|] == e;
  }

  // ---------------------------------------------------------------- in place

  class Executor {
    var files: map<Path, string>
    var copies: map<string, string>
    var manifest: Option<seq<Entry>>

    constructor (files: map<Path, string>)
      ensures this.files == files && copies == map[] && manifest.None?
    {
      this.files, copies, manifest := files, map[], None;
    }

    /** A stale snapshot is cleared first; missing files are recorded, not copied. */
    method SnapshotFiles(targets: seq<Path>)
      modifies this`copies, this`manifest
      ensures manifest.Some? && Covers(manifest.value, copies, files, targets)
      ensures forall name :: name in copies ==> Recorded(manifest.value, name)
    {
      copies, manifest := map[], None;
      var entries: seq<Entry> := [];
      for i := 0 to |targets|
        invariant Covers(entries, copies, files, targets[..i])
        invariant forall name :: name in copies ==> Recorded(entries, name)
      {
        ghost var before := entries;
        if targets[i] !in files {
          entries := entries + [Entry(targets[i], None)];
        } else {
          var name := SnapshotName(i, targets[i].name);
          forall j | 0 <= j < i ensures SnapshotName(j, targets[j].name) != name {
            SnapshotNamesDistinct(j, targets[j].name, i, targets[i].name);
          }
          copies := copies[name := files[targets[i]]];
          entries := entries + [Entry(targets[i], Some(name))];
        }
        forall name | name in copies ensures Recorded(entries, name) {
          RecordedStays(before, entries[i], name);
        }
      }
      assert targets[..|targets|] == targets;
      manifest := Some(entries);
    }

    /** Without a manifest nothing is touched, so a second rollback does nothing. */
    method RollbackFromSnapshot(ghost before: map<Path, string>, ghost targets: seq<Path>)
      requires manifest.Some? ==> Covers(manifest.value, copies, before, targets)
      modifies this
      ensures old(manifest).None? ==> files == old(files)
      ensures old(manifest).Some? ==> files == Restored(before, old(files), targets)
      ensures manifest.None? && (old(manifest).Some? ==> copies == map[])
    {
      if manifest.None? {
        return;
      }
      var entries := manifest.value;
      ghost var left := files;
      assert files == Restored(before, left, targets[..0]);
      for i := 0 to |entries|
        invariant manifest == Some(entries) && copies == old(copies)
        invariant files == Restored(before, left, targets[..i])
      {
        var entry := entries[i];
        assert targets[..i + 1] == targets[..i] + [targets[i]];
        RestoredStep(before, left, targets[..i], targets[i]);
        if entry.snapshotName.None? {
          files := files - {entry.original};
        } else if entry.snapshotName.value in copies {
          files := files[entry.original := copies[entry.snapshotName.value]];
        }
      }
      assert targets[..|targets|] == targets;
      copies, manifest := map[], None;
    }

    /** `left` is whatever file system the body leaves, `result` how it ends. */
    method ExecuteVerifyUpdate(targets: seq<Path>, left: map<Path, string>, result: Result)
      modifies this
      ensures files == if result.Succeeded? then left else Restored(old(files), left, targets)
      ensures manifest.None? && copies == map[]
    {
      SnapshotFiles(targets);
      ghost var before := files;
      files := left;
      if result.Succeeded? {
        copies, manifest := map[], None;
      } else {
        RollbackFromSnapshot(before, targets);
      }
    }
  }
}
