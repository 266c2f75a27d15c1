/** When an admission or recertification run ends how, said of the archive, the database and the call. */
module AdmissionOutcomes {
  import opened Common
  import opened Admission
  import opened AdmissionTheorems

  // ---------------------------------------------------------------- accepted chains

  predicate Readable(w: World, r: Receipt) {
    Sha256(r) in w.files && w.files[Sha256(r)] == File(Some(r), Some(Sha256(r)))
  }

  /** One receipt of an accepted chain, by itself. */
  predicate Sound(w: World, r: Receipt, bind: Binding) {
    && (r.version == RecertificationV <==> r.recertification != None)
    && (r.stage == Completed || r.stage == RolledBack)
    && r.bind == bind
    && r.backup.path in w.backups
    && w.backups[r.backup.path] == Backup(r.backup.inode, Some(r.backup.sha.of))
  }

  /** Schema carries over; so does the digest, except under a recertification that changed nothing, names
      this very receipt and states both digests. */
  predicate CarriesOver(lower: Receipt, upper: Receipt) {
    && upper.invBefore == lower.invAfter
    && (|| upper.dbBefore == lower.dbAfter
        || (&& upper.version == RecertificationV && upper.stage == Completed && !upper.changed && upper.missing == {}
            && upper.invAfter == upper.invBefore && upper.dbAfter == upper.dbBefore
            && upper.recertification == Some(Bridge(Sha256(lower), lower.dbAfter, upper.dbAfter))))
  }

  predicate ChainSound(w: World, r: Receipt, bind: Binding) {
    && (forall i :: 0 <= i < |Chain(r)| ==> Sound(w, Chain(r)[i], bind))
    && (forall i :: 0 <= i < |Chain(r)| - 1 ==> Readable(w, Chain(r)[i]))
    && forall i :: 0 <= i < |Chain(r)| - 1 ==> CarriesOver(Chain(r)[i], Chain(r)[i + 1])
  }

  /** The validator accepts exactly the chains whose receipts are sound, whose predecessors are all
      readable and whose neighbours carry over. */
  lemma {:induction false} AcceptsExactlyWhen(w: World, r: Receipt, bind: Binding)
    ensures Accepts(w, r, bind) <==> ChainSound(w, r, bind)
  {
    if r.previous.Some? {
      var lower := r.previous.value.of;
      AcceptsExactlyWhen(w, lower, bind);
      var below, chain := Chain(lower), Chain(r);
      assert chain == below + [r] && below[|below| - 1] == lower;
      if ChainSound(w, r, bind) {
        assert forall i :: 0 <= i < |below| ==> chain[i] == below[i];
        assert Readable(w, chain[|below| - 1]) && CarriesOver(chain[|below| - 1], chain[|below|]);
        assert Sound(w, chain[|below|], bind);
      }
    } else {
      assert Chain(r) == [r];
    }
  }

  // ---------------------------------------------------------------- before the transaction

  function Own(w: World, c: AdmitCall): Binding {
    Binding(w.identity, Source(w.db.tip, c.cli), c.plan)
  }

  predicate Describes(r: Receipt, db: Database) {
    r.invAfter == Inventory(db.objects, db.malformed) && r.dbAfter == Sha256(db)
  }

  /** A presented receipt is a readable rollback, heads a sound chain of this world and this plan, and
      describes the database. */
  predicate Presented(w: World, c: AdmitCall) {
    c.resume.Some? ==>
      var prior := c.resume.value.of;
      Readable(w, prior) && prior.stage == RolledBack && ChainSound(w, prior, Own(w, c)) && Describes(prior, w.db)
  }

  predicate Opens(w: World, c: AdmitCall) {
    c.preflight && !w.db.malformed && Presented(w, c)
  }

  lemma OpensExactly(w: World, c: AdmitCall)
    requires Sealed(w)
    ensures Opens(w, c) <==> Gate(w, c)
  {
    if c.resume.Some? {
      var prior := c.resume.value.of;
      AcceptsExactlyWhen(w, prior, Own(w, c));
      if Read(w, c.resume.value).Some? {
        assert WriterShape(prior);
      }
    }
  }

  lemma NothingMissing(db: Database, plan: set<string>)
    ensures MissingOf(db, plan) == {} <==> plan <= db.objects
  {
    forall x | x in plan ensures x in MissingOf(db, plan) <==> x !in db.objects {
    }
  }

  predicate BackupGood(w: World) {
    Sha256(w.db) in w.backups ==> w.backups[Sha256(w.db)].content == Some(w.db)
  }

  function BackupInode(w: World, inode: nat): nat {
    if Sha256(w.db) in w.backups then w.backups[Sha256(w.db)].inode else inode
  }

  // ---------------------------------------------------------------- after the transaction

  /** The receipt such a run owes. */
  function Owed(w: World, c: AdmitCall): Receipt {
    var after := c.effect.after;
    var ref := BackupRef(Sha256(w.db), BackupInode(w, c.inode), Sha256(w.db));
    Receipt(AdmissionV, if c.effect.Commits? then Completed else RolledBack, Own(w, c),
            Inventory(w.db.objects, w.db.malformed), Inventory(after.objects, after.malformed), ref,
            Sha256(w.db), Sha256(after), c.resume,
            if c.effect.Commits? then c.effect.changed else false,
            if c.effect.Commits? then c.effect.missing else c.plan - w.db.objects, None)
  }

  /** The commit kept the source tip, left every planned object well-formed, and changed the schema unless
      nothing was missing before. */
  predicate CommitGood(w: World, c: AdmitCall) {
    && c.effect.Commits? && c.effect.after.tip == w.db.tip && c.plan <= c.effect.after.objects
    && !c.effect.after.malformed
    && (c.effect.after.objects != w.db.objects || c.plan <= w.db.objects)
  }

  /** The rollback restored schema and source tip. */
  predicate RollbackGood(w: World, c: AdmitCall) {
    && c.effect.Raises? && c.effect.after.tip == w.db.tip
    && c.effect.after.objects == w.db.objects && c.effect.after.malformed == w.db.malformed
  }

  /** The receipt is stored: its name is free and the run goes on, or it is already there. */
  predicate Stores(w: World, r: Receipt, stop: Stop) {
    || (Sha256(r) !in w.files && stop == RunsToEnd)
    || (Readable(w, r) && (stop == RunsToEnd || stop == AfterReceipt))
  }

  /** The archive and the database after a stored receipt. */
  function Stored(w: World, c: AdmitCall): World {
    World(w.files[Sha256(Owed(w, c)) := File(Some(Owed(w, c)), Some(Sha256(Owed(w, c))))],
          w.backups[Sha256(w.db) := Backup(BackupInode(w, c.inode), Some(w.db))], c.effect.after, w.identity)
  }

  // ---------------------------------------------------------------- how a run ends

  /** Behind the gate everything is decided by backup, kill, transaction and the receipt's name. */
  lemma TransactionExactly(w: World, c: AdmitCall)
    requires !w.db.malformed
    ensures var s := RunTransaction(w, c, Own(w, c), c.resume); var good := CommitGood(w, c) || RollbackGood(w, c);
      && (s.outcome.Admitted? <==> BackupGood(w) && CommitGood(w, c) && Stores(w, Owed(w, c), c.stop))
      && (s.outcome.RolledBackAs? <==> BackupGood(w) && RollbackGood(w, c) && Stores(w, Owed(w, c), c.stop))
      && (s.outcome.Admitted? ==> s == Step(Stored(w, c), Admitted(Sha256(Owed(w, c)))))
      && (s.outcome.RolledBackAs? ==> s == Step(Stored(w, c), RolledBackAs(Sha256(Owed(w, c)))))
      && (s.outcome == Killed <==>
            || (c.stop == DuringBackup && Sha256(w.db) !in w.backups)
            || (BackupGood(w) && (c.stop == DuringBackup || c.stop == AfterBackup))
            || (BackupGood(w) && good && c.stop == AfterDatabase)
            || (BackupGood(w) && good && c.stop == AfterReceipt && Sha256(Owed(w, c)) !in w.files))
      && (s.outcome == AuditStop <==>
            && BackupGood(w) && c.stop != DuringBackup && c.stop != AfterBackup
            && (!good || (c.stop != AfterDatabase && Sha256(Owed(w, c)) in w.files && !Readable(w, Owed(w, c)))))
      && (s.outcome == Refused <==> !BackupGood(w))
  {
    var w1 := WithBackup(w, c.inode);
    assert BackupUsable(w1) <==> BackupGood(w);
    if BackupGood(w) && c.stop != DuringBackup && c.stop != AfterBackup {
      assert w1.backups == w.backups[Sha256(w.db) := Backup(BackupInode(w, c.inode), Some(w.db))];
      BackedUpExactly(w, w1, c);
    }
  }

  lemma BackedUpExactly(w: World, w1: World, c: AdmitCall)
    requires !w.db.malformed && BackupGood(w) && w1 == WithBackup(w, c.inode) && BackupUsable(w1)
    requires w1.backups == w.backups[Sha256(w.db) := Backup(BackupInode(w, c.inode), Some(w.db))]
    ensures var s := RunBackedUp(w1, c, Own(w, c), c.resume); var good := CommitGood(w, c) || RollbackGood(w, c);
      && (s.outcome.Admitted? || s.outcome.RolledBackAs? <==>
            && good && c.stop != AfterDatabase
            && (Readable(w, Owed(w, c)) || (Sha256(Owed(w, c)) !in w.files && c.stop != AfterReceipt)))
      && (s.outcome.Admitted? ==> CommitGood(w, c) && s == Step(Stored(w, c), Admitted(Sha256(Owed(w, c)))))
      && (s.outcome.RolledBackAs? ==> RollbackGood(w, c) && s == Step(Stored(w, c), RolledBackAs(Sha256(Owed(w, c)))))
      && (s.outcome == Killed <==>
            good && (c.stop == AfterDatabase || (c.stop == AfterReceipt && Sha256(Owed(w, c)) !in w.files)))
      && (s.outcome == AuditStop <==>
            !good || (c.stop != AfterDatabase && Sha256(Owed(w, c)) in w.files && !Readable(w, Owed(w, c))))
      && s.outcome != Refused
  {
    var after := c.effect.after;
    NothingMissing(after, c.plan);
    NothingMissing(w.db, c.plan);
    var owed := Owed(w, c);
    var name := Sha256(owed);
    if Readable(w, owed) {
      assert w.files == w.files[name := File(Some(owed), Some(name))];
    }
  }

  /** Admission, exactly: in every sealed archive a call is admitted when its gate opens, its backup is good,
      the commit is good and the receipt is stored; and then the archive holds just the receipt and the
      backup more, and the database is what the commit left. */
  lemma AdmittedExactlyWhen(w: World, c: AdmitCall)
    requires Sealed(w)
    ensures var s := AdmitStep(w, c);
      && (s.outcome.Admitted? <==> Opens(w, c) && BackupGood(w) && CommitGood(w, c) && Stores(w, Owed(w, c), c.stop))
      && (s.outcome.Admitted? ==> s == Step(Stored(w, c), Admitted(Sha256(Owed(w, c)))))
  {
    OpensExactly(w, c);
    GateDecides(w, c);
    if Gate(w, c) {
      TransactionExactly(w, c);
    }
  }

  lemma RolledBackExactlyWhen(w: World, c: AdmitCall)
    requires Sealed(w)
    ensures var s := AdmitStep(w, c);
      && (s.outcome.RolledBackAs? <==> Opens(w, c) && BackupGood(w) && RollbackGood(w, c) && Stores(w, Owed(w, c), c.stop))
      && (s.outcome.RolledBackAs? ==> s == Step(Stored(w, c), RolledBackAs(Sha256(Owed(w, c)))))
  {
    OpensExactly(w, c);
    GateDecides(w, c);
    if Gate(w, c) {
      TransactionExactly(w, c);
    }
  }

  /** A call is killed, or stops for audit, only behind the gate and exactly as its transaction does. */
  lemma StoppedExactlyWhen(w: World, c: AdmitCall)
    requires Sealed(w)
    ensures var s := AdmitStep(w, c); var good := CommitGood(w, c) || RollbackGood(w, c);
      && (s.outcome == Killed <==>
            && Opens(w, c)
            && (|| (c.stop == DuringBackup && Sha256(w.db) !in w.backups)
                || (BackupGood(w) && (c.stop == DuringBackup || c.stop == AfterBackup))
                || (BackupGood(w) && good && c.stop == AfterDatabase)
                || (BackupGood(w) && good && c.stop == AfterReceipt && Sha256(Owed(w, c)) !in w.files)))
      && (s.outcome == AuditStop <==>
            && Opens(w, c) && BackupGood(w) && c.stop != DuringBackup && c.stop != AfterBackup
            && (!good || (c.stop != AfterDatabase && Sha256(Owed(w, c)) in w.files && !Readable(w, Owed(w, c)))))
  {
    OpensExactly(w, c);
    GateDecides(w, c);
    if Gate(w, c) {
      TransactionExactly(w, c);
    }
  }

  /** A completed receipt answers already admitted exactly when it is readable, describes the database,
      nothing planned is missing, and its chain is sound for this world and plan: under the call's own
      source, or for a recertification under its own canonical source of the same tip. */
  lemma AlreadyAdmittedExactlyWhen(w: World, c: AdmitCall)
    ensures AdmitStep(w, c).outcome.AlreadyAdmitted? <==>
      && c.preflight && !w.db.malformed && c.resume.Some?
      && var prior := c.resume.value.of;
         && Readable(w, prior) && prior.stage == Completed && Describes(prior, w.db) && c.plan <= w.db.objects
         && if prior.version == RecertificationV
            then prior.bind.source.cli.canonical && prior.bind.source.tip == w.db.tip
              && ChainSound(w, prior, Binding(w.identity, prior.bind.source, c.plan))
            else ChainSound(w, prior, Own(w, c))
    ensures AdmitStep(w, c).outcome.AlreadyAdmitted? ==> AdmitStep(w, c) == Step(w, AlreadyAdmitted(c.resume.value))
  {
    if c.resume.Some? {
      var prior := c.resume.value.of;
      AcceptsExactlyWhen(w, prior, Own(w, c));
      AcceptsExactlyWhen(w, prior, Binding(w.identity, prior.bind.source, c.plan));
      NothingMissing(w.db, c.plan);
      NeverAlready(w, c, Own(w, c));
      NeverAlready(w, c, Binding(w.identity, prior.bind.source, c.plan));
    } else {
      NeverAlready(w, c, Own(w, c));
    }
  }

  lemma NeverAlready(w: World, c: AdmitCall, bind: Binding)
    ensures !RunTransaction(w, c, bind, c.resume).outcome.AlreadyAdmitted?
  {
  }

  // ---------------------------------------------------------------- recertification

  /** The completed receipt is readable and sound, changed the schema under a canonical source of this tip,
      plan and world; the schema it left is still there and complete; only the bytes differ. */
  predicate Stale(w: World, c: RecertifyCall) {
    c.historical.Some? &&
      var h := c.historical.value.of;
      && Readable(w, h) && h.version == AdmissionV && h.stage == Completed && h.changed
      && h.bind == Binding(w.identity, Source(w.db.tip, h.bind.source.cli), c.plan) && h.bind.source.cli.canonical
      && ChainSound(w, h, h.bind)
      && h.invAfter == Inventory(w.db.objects, false) && !w.db.malformed && c.plan <= w.db.objects
      && h.dbAfter != Sha256(w.db)
  }

  function OwedBridge(w: World, c: RecertifyCall): Receipt
    requires c.historical.Some?
  {
    var h, sha := c.historical.value.of, Sha256(w.db);
    var inv := Inventory(w.db.objects, w.db.malformed);
    Receipt(RecertificationV, Completed, h.bind, inv, inv, BackupRef(sha, BackupInode(w, c.inode), sha), sha, sha,
            c.historical, false, {}, Some(Bridge(c.historical.value, h.dbAfter, sha)))
  }

  lemma StaleExactly(w: World, c: RecertifyCall)
    ensures Stale(w, c) <==>
      c.historical.Some? && Read(w, c.historical.value).Some? && Recertifiable(w, c.historical.value.of, c.plan)
  {
    if c.historical.Some? {
      var h := c.historical.value.of;
      AcceptsExactlyWhen(w, h, h.bind);
      NothingMissing(w.db, c.plan);
    }
  }

  /** Recertification, exactly: how it ends for every archive, database and call, and what it leaves. */
  lemma RecertifiedExactlyWhen(w: World, c: RecertifyCall)
    ensures var s := RecertifyStep(w, c); var open := c.preflight && c.quiet && Stale(w, c);
      var early := c.stop != RunsToEnd && c.stop != AfterReceipt;
      && (s.outcome.Recertified? <==> open && BackupGood(w) && Stores(w, OwedBridge(w, c), c.stop))
      && (s.outcome.Recertified? ==>
            var r := OwedBridge(w, c);
            s == Step(World(w.files[Sha256(r) := File(Some(r), Some(Sha256(r)))],
                            w.backups[Sha256(w.db) := Backup(BackupInode(w, c.inode), Some(w.db))], w.db, w.identity),
                      Recertified(Sha256(r))))
      && (s.outcome == Killed <==>
            && open
            && (|| (c.stop == DuringBackup && Sha256(w.db) !in w.backups) || (BackupGood(w) && early)
                || (BackupGood(w) && c.stop == AfterReceipt && Sha256(OwedBridge(w, c)) !in w.files)))
      && (s.outcome == AuditStop <==>
            && open && BackupGood(w) && !early
            && Sha256(OwedBridge(w, c)) in w.files && !Readable(w, OwedBridge(w, c)))
      && (s.outcome == Refused <==> !open || (!BackupGood(w)))
  {
    StaleExactly(w, c);
    if c.preflight && c.quiet && Stale(w, c) {
      var w1 := WithBackup(w, c.inode);
      assert BackupUsable(w1) <==> BackupGood(w);
      if BackupGood(w) {
        assert w1.backups == w.backups[Sha256(w.db) := Backup(BackupInode(w, c.inode), Some(w.db))];
        var r := OwedBridge(w, c);
        assert RecertificationReceipt(w1, c.historical.value.of) == r;
        if Readable(w, r) {
          assert w.files == w.files[Sha256(r) := File(Some(r), Some(Sha256(r)))];
        }
      }
    }
  }
}
