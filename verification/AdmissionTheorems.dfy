/** What every archive built by the admission command satisfies, and what the
    predecessor walk proves about any archive at all. */
module AdmissionTheorems {
  import opened Common
  import opened Admission

  // ---------------------------------------------------------------- chains

  /** The receipts of a chain, oldest first. */
  function Chain(r: Receipt): (chain: seq<Receipt>)
    ensures |chain| > 0 && chain[|chain| - 1] == r
  {
    if r.previous.None? then [r] else Chain(r.previous.value.of) + [r]
  }

  /** Adjacent receipts of a chain are linked by digest. */
  lemma {:induction false} ChainLinks(r: Receipt, i: nat)
    requires i < |Chain(r)|
    ensures i == 0 ==> Chain(r)[0].previous == None
    ensures i > 0 ==> Chain(r)[i].previous == Some(Sha256(Chain(r)[i - 1]))
    ensures |Chain(Chain(r)[i])| == i + 1
  {
    if r.previous.Some? && i < |Chain(r)| - 1 {
      ChainLinks(r.previous.value.of, i);
    }
  }

  predicate Gap(lower: Receipt, upper: Receipt) {
    lower.dbAfter != upper.dbBefore
  }

  // ---------------------------------------------------------------- the validator on any archive

  /** Every accepted chain, forged or not: one binding throughout, inventories that
      telescope, and a database gap only at a recertification that changed nothing. */
  lemma {:induction false} AcceptedChainTelescopes(w: World, r: Receipt, bind: Binding)
    requires Accepts(w, r, bind)
    ensures forall i :: 0 <= i < |Chain(r)| ==>
      Chain(r)[i].bind == bind && BackupIntact(w, Chain(r)[i].backup)
    ensures forall i :: 0 <= i < |Chain(r)| - 1 ==>
      && Chain(r)[i].invAfter == Chain(r)[i + 1].invBefore
      && (Gap(Chain(r)[i], Chain(r)[i + 1]) ==> Bridges(Chain(r)[i + 1], Chain(r)[i]))
  {
    if r.previous.Some? {
      AcceptedChainTelescopes(w, r.previous.value.of, bind);
    }
  }

  /** Every walk, refused or accepted, reads pairwise different archived receipts, so on every archive
      it stops after at most as many reads as the archive has names; an accepted one has
      read the whole chain. */
  lemma WalkIsBounded(w: World, r: Receipt, bind: Binding)
    ensures Reads(w, r, None, bind) <= |w.files.Keys|
    ensures Accepts(w, r, bind) ==> Reads(w, r, None, bind) == |Chain(r)| - 1
  {
    ReadsAreDistinct(w, r, None, bind);
    SubsetSize(ReadNames(w, r, None, bind), w.files.Keys);
    if Accepts(w, r, bind) {
      AcceptedReadsAll(w, r, None, bind);
    }
  }

  function ReadNames(w: World, r: Receipt, above: Option<Receipt>, bind: Binding): set<Name>
    decreases r
  {
    if WalksOn(w, r, above, bind) then {r.previous.value} + ReadNames(w, r.previous.value.of, Some(r), bind) else {}
  }

  lemma {:induction false} ReadsAreDistinct(w: World, r: Receipt, above: Option<Receipt>, bind: Binding)
    ensures ReadNames(w, r, above, bind) <= w.files.Keys
    ensures forall name :: name in ReadNames(w, r, above, bind) ==> |Chain(name.of)| < |Chain(r)|
    ensures |ReadNames(w, r, above, bind)| == Reads(w, r, above, bind)
    decreases r
  {
    if WalksOn(w, r, above, bind) {
      ReadsAreDistinct(w, r.previous.value.of, Some(r), bind);
    }
  }

  lemma {:induction false} AcceptedReadsAll(w: World, r: Receipt, above: Option<Receipt>, bind: Binding)
    requires Accepts(w, r, bind) && (above.Some? ==> Continuous(above.value, r))
    ensures Reads(w, r, above, bind) == |Chain(r)| - 1
    decreases r
  {
    if r.previous.Some? {
      AcceptedReadsAll(w, r.previous.value.of, Some(r), bind);
    }
  }

  lemma {:induction false} SubsetSize<T>(small: set<T>, large: set<T>)
    requires small <= large
    ensures |small| <= |large|
  {
    if small != {} {
      var x :| x in small;
      SubsetSize(small - {x}, large - {x});
    }
  }

  // ---------------------------------------------------------------- what the writer builds

  predicate RolledBackOnly(r: Receipt) {
    && r.version.AdmissionV? && r.stage.RolledBack?
    && (r.previous.Some? ==> RolledBackOnly(r.previous.value.of))
  }

  predicate OverRolledBack(r: Receipt) {
    && r.version.AdmissionV? && !r.stage.OtherStage?
    && (r.previous.Some? ==> RolledBackOnly(r.previous.value.of))
  }

  predicate WriterShape(r: Receipt) {
    if r.version.AdmissionV? then OverRolledBack(r)
    else
      && r.stage.Completed? && !r.changed && r.dbBefore == r.dbAfter
      && r.previous.Some?
      && r.previous.value.of.stage.Completed? && r.previous.value.of.changed
      && OverRolledBack(r.previous.value.of)
  }

  /** Every readable receipt heads a chain the validator accepts, and has the writer's shape. */
  predicate Sealed(w: World) {
    forall name :: name in w.files && Read(w, name).Some? ==>
      Accepts(w, name.of, name.of.bind) && WriterShape(name.of)
  }

  /** Nothing durable is rewritten. */
  predicate Grows(w: World, w': World) {
    && (forall n :: n in w.files ==> n in w'.files && w'.files[n] == w.files[n])
    && (forall k :: k in w.backups ==> k in w'.backups && w'.backups[k] == w.backups[k])
  }

  lemma {:induction false} AcceptsGrows(w: World, w': World, r: Receipt, bind: Binding)
    requires Grows(w, w') && Accepts(w, r, bind)
    ensures Accepts(w', r, bind)
  {
    if r.previous.Some? {
      AcceptsGrows(w, w', r.previous.value.of, bind);
    }
  }

  /** Round trip: a stored receipt reads back as it was written and every other name reads as before,
      while a torn one does not read at all. */
  lemma ReadAfterWrite(w: World, r: Receipt, tear: bool, name: Name)
    ensures match Write(w, r, tear)
      case Stored(w') => Read(w', name) == if name == Sha256(r) then Some(r) else Read(w, name)
      case Torn(w') => Read(w', name) == if name == Sha256(r) then None else Read(w, name)
      case Collision => Sha256(r) in w.files && Read(w, Sha256(r)).None?
  {
  }

  lemma PersistGrows(w: World, r: Receipt, stop: Stop, done: Outcome)
    ensures Grows(w, Persist(w, r, stop, done).world)
    ensures forall name :: Read(w, name).None? && Read(Persist(w, r, stop, done).world, name).Some?
                           ==> name == Sha256(r)
  {
  }

  /** What a receipt has to say to be put on top of an accepted chain. */
  predicate Extends(w: World, r: Receipt) {
    && ReceiptSound(w, r, r.bind)
    && (r.previous.Some? ==>
          && Read(w, r.previous.value).Some?
          && Continuous(r, r.previous.value.of)
          && Accepts(w, r.previous.value.of, r.bind))
  }

  lemma PersistEffect(w: World, w2: World, r: Receipt, stop: Stop, done: Outcome)
    requires Grows(w, w2) && w2.files == w.files && ReceiptSound(w2, r, r.bind) && WriterShape(r)
    requires r.previous.Some? ==>
      Read(w, r.previous.value).Some? && Continuous(r, r.previous.value.of) && Accepts(w, r.previous.value.of, r.bind)
    ensures var w' := Persist(w2, r, stop, done).world;
      && Grows(w, w')
      && forall name :: Read(w, name).None? && Read(w', name).Some? ==>
           Extends(w', name.of) && WriterShape(name.of)
  {
    var w' := Persist(w2, r, stop, done).world;
    PersistGrows(w2, r, stop, done);
    if r.previous.Some? {
      AcceptsGrows(w, w', r.previous.value.of, r.bind);
    }
  }

  lemma BackedUpEffect(w: World, c: AdmitCall, bind: Binding, previous: Option<Name>)
    requires BackupUsable(w)
    requires previous.Some? ==>
      && Read(w, previous.value).Some? && Accepts(w, previous.value.of, bind)
      && previous.value.of.invAfter == InventoryOf(w.db) && previous.value.of.dbAfter == Sha256(w.db)
    requires previous.Some? ==> RolledBackOnly(previous.value.of)
    ensures var w' := RunBackedUp(w, c, bind, previous).world;
      && Grows(w, w')
      && forall name :: Read(w, name).None? && Read(w', name).Some? ==>
           Extends(w', name.of) && WriterShape(name.of)
  {
    var w2 := w.(db := c.effect.after);
    if c.effect.Commits? {
      var done := TransactionReceipt(w, w2.db, bind, Completed, previous, c.effect.changed, c.effect.missing);
      PersistEffect(w, w2, done, c.stop, Admitted(Sha256(done)));
    } else {
      var back := TransactionReceipt(w, w2.db, bind, RolledBack, previous, false, MissingOf(w.db, c.plan));
      PersistEffect(w, w2, back, c.stop, RolledBackAs(Sha256(back)));
    }
  }

  lemma TransactionEffect(w: World, c: AdmitCall, bind: Binding, previous: Option<Name>)
    requires previous.Some? ==>
      && Read(w, previous.value).Some? && Accepts(w, previous.value.of, bind)
      && previous.value.of.invAfter == InventoryOf(w.db) && previous.value.of.dbAfter == Sha256(w.db)
    requires previous.Some? ==> RolledBackOnly(previous.value.of)
    ensures var w' := RunTransaction(w, c, bind, previous).world;
      && Grows(w, w')
      && forall name :: Read(w, name).None? && Read(w', name).Some? ==>
           Extends(w', name.of) && WriterShape(name.of)
  {
    var w1 := WithBackup(w, c.inode);
    if BackupUsable(w1) {
      if previous.Some? {
        AcceptsGrows(w, w1, previous.value.of, bind);
      }
      BackedUpEffect(w1, c, bind, previous);
    }
  }

  lemma RecertifyEffect(w: World, c: RecertifyCall)
    requires Sealed(w)
    ensures var w' := RecertifyStep(w, c).world;
      && Grows(w, w')
      && forall name :: Read(w, name).None? && Read(w', name).Some? ==>
           Extends(w', name.of) && WriterShape(name.of)
  {
    if c.preflight && c.quiet && c.historical.Some? && Read(w, c.historical.value).Some?
       && Recertifiable(w, c.historical.value.of, c.plan) && BackupUsable(WithBackup(w, c.inode)) {
      var h := c.historical.value.of;
      var w1 := WithBackup(w, c.inode);
      var r := RecertificationReceipt(w1, h);
      RecertificationExtends(w, c, w1, r);
      PersistEffect(w, w1, r, c.stop, Recertified(Sha256(r)));
    }
  }

  lemma RecertificationExtends(w: World, c: RecertifyCall, w1: World, r: Receipt)
    requires Sealed(w) && c.historical.Some? && Read(w, c.historical.value).Some?
    requires Recertifiable(w, c.historical.value.of, c.plan)
    requires w1 == WithBackup(w, c.inode) && BackupUsable(w1) && r == RecertificationReceipt(w1, c.historical.value.of)
    ensures ReceiptSound(w1, r, r.bind) && WriterShape(r) && r.previous == Some(c.historical.value)
    ensures Continuous(r, c.historical.value.of) && Accepts(w, c.historical.value.of, r.bind)
  {
  }

  function OwnBinding(w: World, c: AdmitCall): Binding {
    Binding(w.identity, Source(w.db.tip, c.cli), c.plan)
  }

  /** The receipt presented, if any, is an accepted rollback that describes the database. */
  predicate Gate(w: World, c: AdmitCall) {
    && c.preflight && !w.db.malformed
    && (c.resume.Some? ==>
          var prior := c.resume.value.of;
          && Read(w, c.resume.value).Some? && RolledBackOnly(prior)
          && Accepts(w, prior, OwnBinding(w, c))
          && prior.invAfter == InventoryOf(w.db) && prior.dbAfter == Sha256(w.db))
  }

  /** An admission call runs its transaction when the gate is open and otherwise changes nothing. */
  lemma GateDecides(w: World, c: AdmitCall)
    requires Sealed(w)
    ensures Gate(w, c) ==> AdmitStep(w, c) == RunTransaction(w, c, OwnBinding(w, c), c.resume)
    ensures !Gate(w, c) ==>
      AdmitStep(w, c).world == w
      && (AdmitStep(w, c).outcome.Refused? || AdmitStep(w, c).outcome.AlreadyAdmitted?)
  {
    if c.resume.Some? && Read(w, c.resume.value).Some? {
      assert WriterShape(c.resume.value.of);
    }
  }

  lemma RunEffect(w: World, c: Call)
    requires Sealed(w)
    ensures var w' := Run(w, c).world;
      && Grows(w, w')
      && forall name :: Read(w, name).None? && Read(w', name).Some? ==>
           Extends(w', name.of) && WriterShape(name.of)
  {
    match c
    case Recertify(r) => RecertifyEffect(w, r);
    case Admit(a) =>
      GateDecides(w, a);
      if Gate(w, a) {
        TransactionEffect(w, a, OwnBinding(w, a), a.resume);
      }
  }

  lemma RunKeepsSealed(w: World, c: Call)
    requires Sealed(w)
    ensures Sealed(Run(w, c).world)
  {
    var w' := Run(w, c).world;
    RunEffect(w, c);
    forall name | name in w'.files && Read(w', name).Some?
      ensures Accepts(w', name.of, name.of.bind) && WriterShape(name.of)
    {
      if Read(w, name).Some? {
        AcceptsGrows(w, w', name.of, name.of.bind);
      } else {
        assert Extends(w', name.of);
      }
    }
  }

  // ---------------------------------------------------------------- whole histories

  /** Between runs the dev service may change the database, or it may be replaced. */
  datatype Event = Ran(call: Call) | Drifted(db: Database, identity: nat)

  function After(w: World, events: seq<Event>): World {
    if events == [] then w
    else
      var w' := After(w, events[..|events| - 1]);
      match events[|events| - 1]
      case Ran(call) => Run(w', call).world
      case Drifted(db, identity) => w'.(db := db, identity := identity)
  }

  predicate EmptyArchive(w: World) {
    w.files == map[] && w.backups == map[]
  }

  /** Writer meets validator: after any history of admissions, rollbacks,
      recertifications, crashes and database drift, every readable receipt heads a
      chain the validator accepts under that receipt's own binding. */
  lemma WriterMeetsValidator(w: World, events: seq<Event>)
    requires EmptyArchive(w)
    ensures Sealed(After(w, events))
  {
    HistoryGrows(w, events);
  }

  /** No history rewrites a receipt or a backup, and none breaks the seal. */
  lemma {:induction false} HistoryGrows(w: World, events: seq<Event>)
    requires Sealed(w)
    ensures Grows(w, After(w, events)) && Sealed(After(w, events))
  {
    if events != [] {
      var before := After(w, events[..|events| - 1]);
      HistoryGrows(w, events[..|events| - 1]);
      match events[|events| - 1]
      case Ran(call) =>
        RunEffect(before, call);
        RunKeepsSealed(before, call);
      case Drifted(db, identity) =>
        var after := before.(db := db, identity := identity);
        forall name | name in after.files && Read(after, name).Some?
          ensures Accepts(after, name.of, name.of.bind)
        {
          AcceptsGrows(before, after, name.of, name.of.bind);
        }
    }
  }

  lemma {:induction false} RolledBackThroughout(r: Receipt, i: nat)
    requires RolledBackOnly(r) && i < |Chain(r)|
    ensures Chain(r)[i].version.AdmissionV? && Chain(r)[i].stage.RolledBack?
  {
    if i < |Chain(r)| - 1 {
      RolledBackThroughout(r.previous.value.of, i);
    }
  }

  /** Oldest first, a writer's chain is rolled-back receipts, then at most one completed
      receipt, then at most one recertification of it; and the only place where
      the database digest may jump is below that recertification. */
  lemma WriterChainShape(w: World, events: seq<Event>, name: Name, i: nat)
    requires EmptyArchive(w) && Read(After(w, events), name).Some?
    requires i < |Chain(name.of)|
    ensures var chain := Chain(name.of); var last := |chain| - 1;
      && (i < last - 1 ==> chain[i].version.AdmissionV? && chain[i].stage.RolledBack?)
      && (i == last - 1 && chain[i].stage.Completed? ==> chain[last].version.RecertificationV?)
      && (chain[i].version.RecertificationV? ==>
            i == last && i > 0 && chain[i - 1].version.AdmissionV?
            && chain[i - 1].stage.Completed? && chain[i - 1].changed)
    ensures var chain := Chain(name.of);
      i > 0 && Gap(chain[i - 1], chain[i]) ==>
        i == |chain| - 1 && chain[i].version.RecertificationV? && !chain[i].changed
        && chain[i].dbBefore == chain[i].dbAfter
  {
    WriterMeetsValidator(w, events);
    var r := name.of;
    AcceptedChainTelescopes(After(w, events), r, r.bind);
    var last := |Chain(r)| - 1;
    if i < last {
      var lower := r.previous.value.of;
      if r.version.AdmissionV? {
        RolledBackThroughout(lower, i);
      } else if i < last - 1 {
        RolledBackThroughout(lower.previous.value.of, i);
      }
    }
    if i > 0 && Gap(Chain(r)[i - 1], Chain(r)[i]) {
      assert Bridges(Chain(r)[i], Chain(r)[i - 1]);
    }
  }

  // ---------------------------------------------------------------- re-running the command

  predicate SameOperator(c: AdmitCall, c': AdmitCall) {
    c'.preflight && c'.cli == c.cli && c'.plan == c.plan
  }

  /** Presenting the receipt of a successful admission changes nothing and says so. */
  lemma AdmittedThenResumed(w: World, c: AdmitCall, c': AdmitCall, name: Name)
    requires Sealed(w) && AdmitStep(w, c).outcome == Admitted(name)
    requires SameOperator(c, c') && c'.resume == Some(name)
    ensures AdmitStep(AdmitStep(w, c).world, c') == Step(AdmitStep(w, c).world, AlreadyAdmitted(name))
  {
    WrittenReceipt(w, c);
    RunKeepsSealed(w, Admit(c));
  }

  /** Presenting the receipt of a rollback starts the transaction again on top of it. */
  lemma RolledBackThenResumed(w: World, c: AdmitCall, c': AdmitCall, name: Name)
    requires Sealed(w) && AdmitStep(w, c).outcome == RolledBackAs(name)
    requires SameOperator(c, c') && c'.resume == Some(name)
    ensures AdmitStep(AdmitStep(w, c).world, c') ==
            RunTransaction(AdmitStep(w, c).world, c', name.of.bind, Some(name))
  {
    WrittenReceipt(w, c);
    RunKeepsSealed(w, Admit(c));
  }

  /** The receipt a run reports is readable and describes the database it left. */
  lemma WrittenReceipt(w: World, c: AdmitCall)
    requires Sealed(w)
    ensures var s := AdmitStep(w, c);
      s.outcome.Admitted? || s.outcome.RolledBackAs? ==>
        Reports(s, w, OwnBinding(w, c), c.plan, c.resume)
  {
    if AdmitStep(w, c).outcome.Admitted? || AdmitStep(w, c).outcome.RolledBackAs? {
      GateDecides(w, c);
      TransactionReport(w, c, OwnBinding(w, c), c.resume);
    }
  }

  /** The outcome names a receipt that is readable and describes the database after the transaction. */
  predicate Reports(s: Step, w: World, bind: Binding, plan: set<string>, previous: Option<Name>) {
    && !s.outcome.AlreadyAdmitted? && !s.outcome.Recertified?
    && (s.outcome.Admitted? || s.outcome.RolledBackAs? ==>
          var r := s.outcome.name.of;
          && Read(s.world, s.outcome.name).Some?
          && r.version.AdmissionV? && r.stage.Completed? == s.outcome.Admitted?
          && r.stage.RolledBack? == s.outcome.RolledBackAs?
          && r.bind == bind && r.previous == previous
          && s.world.db.tip == w.db.tip && s.world.identity == w.identity
          && !s.world.db.malformed
          && r.invAfter == InventoryOf(s.world.db) && r.dbAfter == Sha256(s.world.db)
          && (s.outcome.Admitted? ==> MissingOf(s.world.db, plan) == {}))
  }

  lemma BackedUpReport(w: World, c: AdmitCall, bind: Binding, previous: Option<Name>)
    requires BackupUsable(w) && !w.db.malformed
    ensures Reports(RunBackedUp(w, c, bind, previous), w, bind, c.plan, previous)
  {
  }

  lemma TransactionReport(w: World, c: AdmitCall, bind: Binding, previous: Option<Name>)
    requires !w.db.malformed
    ensures Reports(RunTransaction(w, c, bind, previous), w, bind, c.plan, previous)
  {
    var w1 := WithBackup(w, c.inode);
    if BackupUsable(w1) {
      BackedUpReport(w1, c, bind, previous);
    }
  }

  /** A recertification receipt is itself a completed receipt: whatever checkout the
      operator runs from, presenting it answers already admitted. */
  lemma RecertifiedThenResumed(w: World, c: RecertifyCall, c': AdmitCall, name: Name)
    requires Sealed(w) && RecertifyStep(w, c).outcome == Recertified(name)
    requires c'.preflight && c'.plan == c.plan && c'.resume == Some(name)
    ensures AdmitStep(RecertifyStep(w, c).world, c') ==
            Step(RecertifyStep(w, c).world, AlreadyAdmitted(name))
  {
    RunKeepsSealed(w, Recertify(c));
  }
}
