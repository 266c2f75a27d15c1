/** What an admission or recertification run does after a kill, at once and for ever. */
module AdmissionCrashes {
  import opened Common
  import opened Admission
  import opened AdmissionTheorems

  // ---------------------------------------------------------------- the same admission again

  /** The repeat of a killed call: the same operator input and the same schema transaction, to the end. */
  function Repeat(c: AdmitCall): AdmitCall {
    c.(stop := RunsToEnd)
  }

  /** The receipt of the call's transaction on this world. */
  function ReceiptOf(w: World, c: AdmitCall): Receipt
    requires BackupUsable(w)
  {
    match c.effect
    case Raises(after) =>
      TransactionReceipt(w, after, OwnBinding(w, c), RolledBack, c.resume, false, MissingOf(w.db, c.plan))
    case Commits(after, changed, missing) =>
      TransactionReceipt(w, after, OwnBinding(w, c), Completed, c.resume, changed, missing)
  }

  /** What a transaction reports that starts from the database it will leave. */
  function FreshOutcome(w: World, c: AdmitCall): Outcome {
    var w1 := WithBackup(w, c.inode);
    if !BackupUsable(w1) then Refused
    else
      var r := ReceiptOf(w1, c);
      if Write(w1, r, false).Collision? then AuditStop
      else if c.effect.Commits? then Admitted(Sha256(r)) else RolledBackAs(Sha256(r))
  }

  /** The world a killed call leaves behind, by the effect after which it was killed. */
  predicate LeftBehind(w: World, c: AdmitCall, w': World) {
    match c.stop
    case RunsToEnd => false
    case DuringBackup =>
      if Sha256(w.db) in w.backups then w' == w
      else w' == w.(backups := w.backups[Sha256(w.db) := Backup(c.inode, None)])
    case AfterBackup => w' == WithBackup(w, c.inode)
    case AfterDatabase => w' == WithBackup(w, c.inode).(db := c.effect.after)
    case AfterReceipt =>
      var w1 := WithBackup(w, c.inode);
      && BackupUsable(w1)
      && Write(w1.(db := c.effect.after), ReceiptOf(w1, c), true) == Torn(w')
  }

  /** Killed calls passed the gate, and leave exactly the effects before the kill. */
  lemma KilledLeaves(w: World, c: AdmitCall)
    requires Sealed(w) && AdmitStep(w, c).outcome == Killed
    ensures Gate(w, c) && LeftBehind(w, c, AdmitStep(w, c).world)
    ensures Sha256(w.db) in w.backups || !c.stop.DuringBackup? ==> BackupUsable(WithBackup(w, c.inode))
    ensures c.stop.AfterDatabase? || c.stop.AfterReceipt? ==> !c.effect.after.malformed && c.effect.after.tip == w.db.tip
    ensures (c.stop.AfterDatabase? || c.stop.AfterReceipt?) && c.effect.Commits? ==> MissingOf(c.effect.after, c.plan) == {}
  {
    GateDecides(w, c);
  }

  /** The gate stays open for a call as long as the database is the same. */
  lemma GateGrows(w: World, w': World, c: AdmitCall)
    requires Gate(w, c) && Grows(w, w') && w'.db == w.db && w'.identity == w.identity
    ensures Gate(w', Repeat(c)) && OwnBinding(w', Repeat(c)) == OwnBinding(w, c)
  {
    if c.resume.Some? {
      AcceptsGrows(w, w', c.resume.value.of, OwnBinding(w, c));
    }
  }

  lemma SameBytesRepeat(w: World, w': World, c: AdmitCall)
    requires Sealed(w) && Sealed(w') && Gate(w, c) && LeftBehind(w, c, w') && Grows(w, w')
    requires c.stop.AfterDatabase? || c.stop.AfterReceipt? ==> c.effect.after == w.db
    requires Sha256(w.db) in w.backups || !c.stop.DuringBackup? ==> BackupUsable(WithBackup(w, c.inode))
    ensures AdmitStep(w', Repeat(c)) == RunTransaction(w', Repeat(c), OwnBinding(w, c), c.resume)
    ensures AdmitStep(w, Repeat(c)) == RunTransaction(w, Repeat(c), OwnBinding(w, c), c.resume)
    ensures c.stop.DuringBackup? && Sha256(w.db) !in w.backups ==> AdmitStep(w', Repeat(c)).outcome == Refused
  {
    GateGrows(w, w', c);
    GateDecides(w', Repeat(c));
    GateGrows(w, w, c);
    GateDecides(w, Repeat(c));
  }

  lemma SameBackup(w: World, w': World, c: AdmitCall, bind: Binding, previous: Option<Name>)
    requires w' == w || w' == WithBackup(w, c.inode)
    ensures RunTransaction(w', Repeat(c), bind, previous) == RunTransaction(w, Repeat(c), bind, previous)
  {
    assert WithBackup(w', c.inode) == WithBackup(w, c.inode);
  }

  /** The receipt file is there without its sidecar, and the same receipt is due again. */
  lemma TornCollides(w: World, w': World, c: AdmitCall)
    requires Gate(w, c) && c.stop.AfterReceipt? && LeftBehind(w, c, w') && c.effect.after == w.db
    requires AdmitStep(w, c).outcome == Killed && AdmitStep(w, c).world == w' && Sealed(w)
    ensures RunTransaction(w', Repeat(c), OwnBinding(w, c), c.resume).outcome == AuditStop
  {
    GateDecides(w, c);
    assert WithBackup(w', c.inode) == w';
  }

  /** Crash and repeat, every case.  A backup cut short is never usable again.  After a whole backup, or
      a transaction that left the bytes alone, the repeat does what the run would have done, except
      that a receipt without its sidecar blocks the same receipt for ever.  After a transaction that
      changed the bytes, a presented rollback no longer describes the database and is refused, and
      without one the transaction runs again from the bytes it had left. */
  lemma RepeatAfterCrash(w: World, c: AdmitCall)
    requires Sealed(w) && AdmitStep(w, c).outcome == Killed
    ensures var w' := AdmitStep(w, c).world; var again := AdmitStep(w', Repeat(c)).outcome;
      match c.stop
      case RunsToEnd => false
      case DuringBackup => again == if Sha256(w.db) in w.backups then AdmitStep(w, Repeat(c)).outcome else Refused
      case AfterBackup => again == AdmitStep(w, Repeat(c)).outcome
      case AfterDatabase =>
        again == if c.effect.after == w.db then AdmitStep(w, Repeat(c)).outcome
                 else if c.resume.Some? then Refused else FreshOutcome(w', c)
      case AfterReceipt =>
        again == if c.effect.after == w.db then AuditStop
                 else if c.resume.Some? then Refused else FreshOutcome(w', c)
  {
    KilledLeaves(w, c);
    var w' := AdmitStep(w, c).world;
    RunKeepsSealed(w, Admit(c));
    if c.effect.after == w.db || c.stop.DuringBackup? || c.stop.AfterBackup? {
      RunEffect(w, Admit(c));
      SameBytesRepeat(w, w', c);
      if c.stop.AfterReceipt? {
        TornCollides(w, w', c);
      } else if Sha256(w.db) in w.backups || !c.stop.DuringBackup? {
        SameBackup(w, w', c, OwnBinding(w, c), c.resume);
      }
    } else if c.resume.Some? {
      GateDecides(w', Repeat(c));
    } else {
      FreshRepeat(w', c);
    }
  }

  /** Without a receipt to present, a call on a sound database that already is what its transaction
      leaves reports what the transaction reports. */
  lemma FreshRepeat(w: World, c: AdmitCall)
    requires c.preflight && c.resume.None? && w.db == c.effect.after && !w.db.malformed
    requires c.effect.Commits? ==> MissingOf(w.db, c.plan) == {}
    ensures AdmitStep(w, Repeat(c)).outcome == FreshOutcome(w, c)
  {
  }

  // ---------------------------------------------------------------- the same recertification again

  /** A killed recertification repeated: refused after a backup cut short, stopped for audit after a receipt
      without its sidecar, and otherwise what the run would have done. */
  lemma RecertificationAfterCrash(w: World, c: RecertifyCall)
    requires Sealed(w) && RecertifyStep(w, c).outcome == Killed
    ensures var w' := RecertifyStep(w, c).world; var again := RecertifyStep(w', c.(stop := RunsToEnd)).outcome;
      again == if c.stop.DuringBackup? && Sha256(w.db) !in w.backups then Refused
               else if c.stop.AfterReceipt? then AuditStop
               else RecertifyStep(w, c.(stop := RunsToEnd)).outcome
  {
    var w' := RecertifyStep(w, c).world;
    var h := c.historical.value.of;
    RunEffect(w, Recertify(c));
    AcceptsGrows(w, w', h, h.bind);
    assert Recertifiable(w', h, c.plan);
  }

  // ---------------------------------------------------------------- for ever

  predicate BackupTorn(w: World, key: Digest<Database>) {
    key in w.backups && w.backups[key].content != Some(key.of)
  }

  predicate ReceiptTorn(w: World, name: Name) {
    name in w.files && Read(w, name).None?
  }

  /** A backup cut short is never usable again: after every later history, no call on those bytes does
      more than answer that they are already admitted. */
  lemma TornBackupIsFinal(w: World, events: seq<Event>, call: Call)
    requires Sealed(w) && BackupTorn(w, Sha256(After(w, events).db))
    ensures var now := After(w, events);
      && Run(now, call).world == now
      && (Run(now, call).outcome.Refused? || Run(now, call).outcome.AlreadyAdmitted?)
  {
    HistoryGrows(w, events);
    TornBackupRefuses(After(w, events), call);
  }

  lemma TornBackupRefuses(w: World, call: Call)
    requires Sealed(w) && BackupTorn(w, Sha256(w.db))
    ensures Run(w, call).world == w && (Run(w, call).outcome.Refused? || Run(w, call).outcome.AlreadyAdmitted?)
  {
    match call
    case Admit(c) => GateDecides(w, c);
    case Recertify(c) =>
  }

  /** A receipt without its sidecar blocks the same receipt for ever: after every later history it is
      unreadable and writing it collides. */
  lemma TornReceiptIsFinal(w: World, events: seq<Event>, name: Name, tear: bool)
    requires Sealed(w) && ReceiptTorn(w, name)
    ensures var now := After(w, events); Read(now, name).None? && Write(now, name.of, tear).Collision?
  {
    HistoryGrows(w, events);
  }
}
