/** The admission command as it runs: one archive directory and one database, changed in
    place, each operation proved against the function that specifies it. */
module AdmissionArchive {
  import opened Common
  import opened Admission

  class Archive {
    var files: map<Name, File>
    var backups: map<Digest<Database>, Backup>
    var db: Database
    var identity: nat

    function View(): World
      reads this
    {
      World(files, backups, db, identity)
    }

    constructor (db: Database, identity: nat)
      ensures View() == World(map[], map[], db, identity)
    {
      this.files, this.backups, this.db, this.identity := map[], map[], db, identity;
    }

    method ReadReceipt(name: Name) returns (r: Option<Receipt>)
      ensures r == Read(View(), name)
    {
      if name !in files {
        return None;
      }
      var file := files[name];
      if file.content.None? || file.sidecar.None? {
        return None;
      }
      if Sha256(file.content.value) != name || file.sidecar.value != name {
        return None;
      }
      return file.content;
    }

    /** Receipt first, sidecar second; `tear` kills the process between the two. */
    method WriteReceipt(r: Receipt, tear: bool) returns (result: Written)
      modifies this`files
      ensures result == Write(old(View()), r, tear)
      ensures View() == if result.Collision? then old(View()) else result.world
    {
      var name := Sha256(r);
      var before := View();
      if name in files {
        if files[name] != File(Some(r), Some(name)) {
          return Collision;
        }
        return Stored(before);
      }
      files := files[name := File(Some(r), None)];
      if tear {
        return Torn(View());
      }
      files := files[name := File(Some(r), Some(name))];
      assert files == before.files[name := File(Some(r), Some(name))];
      return Stored(View());
    }

    /** The predecessor walk: one receipt at a time, oldest last, against the receipt above. */
    method ValidateChain(receipt: Receipt, bind: Binding) returns (ok: bool, readings: nat)
      ensures ok == Accepts(View(), receipt, bind)
      ensures readings == Reads(View(), receipt, None, bind)
    {
      var current := receipt;
      readings := 0;
      var descendant: Option<Receipt> := None;
      while true
        invariant Accepts(View(), receipt, bind) <==>
          && Accepts(View(), current, bind)
          && (descendant.Some? ==> Continuous(descendant.value, current))
        invariant Reads(View(), receipt, None, bind) == readings + Reads(View(), current, descendant, bind)
        decreases current
      {
        if !ReceiptSound(View(), current, bind) {
          return false, readings;
        }
        if descendant.Some? && !Continuous(descendant.value, current) {
          return false, readings;
        }
        if current.previous.None? {
          return true, readings;
        }
        var below := ReadReceipt(current.previous.value);
        if below.None? {
          return false, readings;
        }
        readings := readings + 1;
        descendant := Some(current);
        current := below.value;
      }
    }

    /** Backup, schema transaction, receipt. */
    method Transact(c: AdmitCall, bind: Binding, previous: Option<Name>) returns (outcome: Outcome)
      modifies this
      ensures Step(View(), outcome) == RunTransaction(old(View()), c, bind, previous)
    {
      var before := db;
      var key := Sha256(before);
      if key !in backups {
        if c.stop.DuringBackup? {
          backups := backups[key := Backup(c.inode, None)];
          return Killed;
        }
        backups := backups[key := Backup(c.inode, Some(before))];
      }
      if backups[key].content != Some(before) {
        return Refused;
      }
      if c.stop.DuringBackup? || c.stop.AfterBackup? {
        return Killed;
      }
      ghost var staged := View();
      assert staged == WithBackup(old(View()), c.inode);
      var copy := BackupRef(key, backups[key].inode, key);
      db := c.effect.after;
      var stage, changed, missing := RolledBack, false, MissingOf(before, c.plan);
      match c.effect {
        case Raises(after) =>
          if InventoryOf(after) != InventoryOf(before) || after.tip != before.tip {
            return AuditStop;
          }
        case Commits(after, didChange, wasMissing) =>
          if || after.tip != before.tip || MissingOf(after, c.plan) != {} || after.malformed
             || (InventoryOf(after) == InventoryOf(before) && missing != {})
          {
            return AuditStop;
          }
          stage, changed, missing := Completed, didChange, wasMissing;
      }
      if c.stop.AfterDatabase? {
        return Killed;
      }
      var receipt := Receipt(AdmissionV, stage, bind, InventoryOf(before), InventoryOf(db), copy,
                             key, Sha256(db), previous, changed, missing, None);
      assert receipt == TransactionReceipt(staged, db, bind, stage, previous, changed, missing);
      var written := WriteReceipt(receipt, c.stop.AfterReceipt?);
      match written {
        case Stored(_) =>
          outcome := if stage.Completed? then Admitted(Sha256(receipt)) else RolledBackAs(Sha256(receipt));
        case Torn(_) => outcome := Killed;
        case Collision => outcome := AuditStop;
      }
    }

    method AdmitSchema(c: AdmitCall) returns (outcome: Outcome)
      modifies this
      ensures Step(View(), outcome) == AdmitStep(old(View()), c)
    {
      if !c.preflight || db.malformed {
        return Refused;
      }
      var bind := Binding(identity, Source(db.tip, c.cli), c.plan);
      if c.resume.Some? {
        var prior := ReadReceipt(c.resume.value);
        if prior.None? {
          return Refused;
        }
        if prior.value.version.RecertificationV? {
          var historical := prior.value.bind.source;
          if !historical.cli.canonical || historical.tip != db.tip {
            return Refused;
          }
          bind := bind.(source := historical);
        }
        var accepted, _ := ValidateChain(prior.value, bind);
        if !accepted || prior.value.invAfter != InventoryOf(db) || prior.value.dbAfter != Sha256(db) {
          return Refused;
        }
        if prior.value.stage.Completed? {
          outcome := if MissingOf(db, c.plan) != {} then Refused else AlreadyAdmitted(c.resume.value);
          return;
        }
      }
      outcome := Transact(c, bind, c.resume);
    }

    method RecertifyExistingBytes(c: RecertifyCall) returns (outcome: Outcome)
      modifies this
      ensures Step(View(), outcome) == RecertifyStep(old(View()), c)
    {
      if !c.preflight || !c.quiet || c.historical.None? {
        return Refused;
      }
      var found := ReadReceipt(c.historical.value);
      if found.None? {
        return Refused;
      }
      var h := found.value;
      if || !h.version.AdmissionV? || !h.stage.Completed? || !h.changed || !h.bind.source.cli.canonical
         || h.bind.identity != identity || h.bind.plan != c.plan
      {
        return Refused;
      }
      var accepted, _ := ValidateChain(h, h.bind);
      if || !accepted || h.dbAfter == Sha256(db) || MissingOf(db, c.plan) != {} || db.malformed
         || h.bind.source.tip != db.tip || InventoryOf(db) != h.invAfter
      {
        return Refused;
      }
      var key := Sha256(db);
      if key !in backups {
        if c.stop.DuringBackup? {
          backups := backups[key := Backup(c.inode, None)];
          return Killed;
        }
        backups := backups[key := Backup(c.inode, Some(db))];
      }
      if backups[key].content != Some(db) {
        return Refused;
      }
      if !c.stop.RunsToEnd? && !c.stop.AfterReceipt? {
        return Killed;
      }
      assert View() == WithBackup(old(View()), c.inode);
      var receipt := RecertificationReceipt(View(), h);
      var written := WriteReceipt(receipt, c.stop.AfterReceipt?);
      match written {
        case Stored(_) => outcome := Recertified(Sha256(receipt));
        case Torn(_) => outcome := Killed;
        case Collision => outcome := AuditStop;
      }
    }
  }
}
