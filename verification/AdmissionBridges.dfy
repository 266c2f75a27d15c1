/** The validator is wider than the writer: it follows any number of recertification bridges. */
module AdmissionBridges {
  import opened Common
  import opened Admission
  import opened AdmissionTheorems

  const BOUND := Binding(0, Source(0, CliSource(0, true)), {})

  /** Databases that differ in their bytes but not in their schema. */
  function Bytes(i: nat): Database {
    Database({}, false, 0, i)
  }

  function CopyOf(i: nat): BackupRef {
    BackupRef(Sha256(Bytes(i)), 0, Sha256(Bytes(i)))
  }

  /** A completed receipt under n recertifications, each of the one below it. */
  function Tower(n: nat): (r: Receipt)
    ensures r.bind == BOUND && r.invBefore == r.invAfter == Inventory({}, false)
    ensures r.dbBefore == r.dbAfter == Sha256(Bytes(n)) && r.backup == CopyOf(n)
  {
    var inv, sha := Inventory({}, false), Sha256(Bytes(n));
    if n == 0 then Receipt(AdmissionV, Completed, BOUND, inv, inv, CopyOf(0), sha, sha, None, true, {}, None)
    else
      var lower := Tower(n - 1);
      Receipt(RecertificationV, Completed, BOUND, inv, inv, CopyOf(n), sha, sha, Some(Sha256(lower)), false, {},
              Some(Bridge(Sha256(lower), lower.dbAfter, sha)))
  }

  /** The archive keeps this receipt of the tower and its backup. */
  predicate Keeps(w: World, k: nat) {
    Read(w, Sha256(Tower(k))).Some? && BackupIntact(w, CopyOf(k))
  }

  /** The archive of all receipts of the tower. */
  function TowerWorld(n: nat): World {
    World(map k: nat | k <= n :: Sha256(Tower(k)) := File(Some(Tower(k)), Some(Sha256(Tower(k)))),
          map k: nat | k <= n :: Sha256(Bytes(k)) := Backup(0, Some(Bytes(k))), Bytes(n), 0)
  }

  lemma TowerKept(n: nat, k: nat)
    requires k <= n
    ensures Keeps(TowerWorld(n), k)
  {
  }

  lemma TowerStep(n: nat)
    ensures if n == 0 then Tower(n).previous.None?
            else Tower(n).previous == Some(Sha256(Tower(n - 1))) && Continuous(Tower(n), Tower(n - 1))
    ensures Tower(n).version.RecertificationV? <==> Tower(n).recertification.Some?
    ensures Tower(n).stage.Completed?
  {
  }

  lemma {:induction false} TowerAccepted(w: World, n: nat)
    requires forall k: nat :: k <= n ==> Keeps(w, k)
    ensures Accepts(w, Tower(n), BOUND)
  {
    TowerStep(n);
    assert Keeps(w, n);
    if n > 0 {
      TowerAccepted(w, n - 1);
      assert Keeps(w, n - 1);
    }
  }

  lemma {:induction false} TowerChain(n: nat, i: nat)
    requires i <= n
    ensures |Chain(Tower(n))| == n + 1 && Chain(Tower(n))[i] == Tower(i)
  {
    if n > 0 {
      TowerChain(n - 1, if i < n then i else 0);
    }
  }

  lemma TowerShape(n: nat)
    ensures n >= 2 ==> !WriterShape(Tower(n))
  {
  }

  /** For every n there is an accepted chain of n bridges with a database gap below each; from the
      second bridge on no run builds it. */
  lemma ValidatorAcceptsAnyBridges(n: nat)
    ensures exists w: World, r: Receipt :: (
      && Accepts(w, r, r.bind) && |Chain(r)| == n + 1
      && (forall i :: 0 <= i < n ==> Gap(Chain(r)[i], Chain(r)[i + 1]))
      && (n >= 2 ==> !WriterShape(r)))
  {
    var w, r := TowerWorld(n), Tower(n);
    forall k: nat | k <= n ensures Keeps(w, k) {
      TowerKept(n, k);
    }
    TowerAccepted(w, n);
    TowerChain(n, n);
    TowerShape(n);
    forall i | 0 <= i < n ensures Gap(Chain(r)[i], Chain(r)[i + 1]) {
      TowerChain(n, i);
      TowerChain(n, i + 1);
    }
    assert Accepts(w, r, r.bind);
  }
}
