/** Offline schema admission and its receipt chain (agent/cli.py).

    The archive directory, its backups and the database are one value, `World`; a run of the
    command is a function from the world before to the world after, and may stop
    after any of its durable effects. */
module Admission {
  import opened Common

  datatype Version = AdmissionV | RecertificationV

  /** `OtherStage` stands for any stage text the validator refuses. */
  datatype Stage = Completed | RolledBack | OtherStage

  /** Schema objects, definitions that differ from the plan, source tip and all other bytes. */
  datatype Database = Database(objects: set<string>, malformed: bool, tip: nat, rest: nat)

  datatype Inventory = Inventory(objects: set<string>, malformed: bool)

  function InventoryOf(db: Database): Inventory {
    Inventory(db.objects, db.malformed)
  }

  function MissingOf(db: Database, plan: set<string>): set<string> {
    plan - db.objects
  }

  /** Git identity of the command's own checkout; `canonical` is: on the dev branch and clean. */
  datatype CliSource = CliSource(commit: nat, canonical: bool)

  datatype Source = Source(tip: nat, cli: CliSource)

  /** Everything a receipt binds besides the database bytes.  `identity` stands for the
      device/inode identity of the storage root and of the database file. */
  datatype Binding = Binding(identity: nat, source: Source, plan: set<string>)

  /** A backup is named by the digest of the bytes it copies. */
  datatype BackupRef = BackupRef(path: Digest<Database>, inode: nat, sha: Digest<Database>)

  /** `content` is None when the copy was interrupted. */
  datatype Backup = Backup(inode: nat, content: Option<Database>)

  datatype Bridge<N> = Bridge(
    historical: N, historicalAfter: Digest<Database>, current: Digest<Database>)

  datatype Receipt = Receipt(
    version: Version, stage: Stage, bind: Binding,
    invBefore: Inventory, invAfter: Inventory, backup: BackupRef,
    dbBefore: Digest<Database>, dbAfter: Digest<Database>,
    previous: Option<Digest<Receipt>>, changed: bool, missing: set<string>,
    recertification: Option<Bridge<Digest<Receipt>>>)

  type Name = Digest<Receipt>

  /** `<digest>.json` and `<digest>.sha256`; either may be absent after a crash or tampering. */
  datatype File = File(content: Option<Receipt>, sidecar: Option<Name>)

  datatype World = World(
    files: map<Name, File>, backups: map<Digest<Database>, Backup>, db: Database, identity: nat)

  // ---------------------------------------------------------------- reading and writing

  function Read(w: World, name: Name): (r: Option<Receipt>)
    ensures r.Some? ==> r.value == name.of
  {
    if name in w.files
       && w.files[name] == File(Some(name.of), Some(name))
    then Some(name.of) else None
  }

  datatype Written = Stored(world: World) | Torn(world: World) | Collision

  function Write(w: World, r: Receipt, tear: bool): Written {
    var name := Sha256(r);
    if name in w.files then
      if w.files[name] == File(Some(r), Some(name)) then Stored(w) else Collision
    else if tear then Torn(w.(files := w.files[name := File(Some(r), None)]))
    else Stored(w.(files := w.files[name := File(Some(r), Some(name))]))
  }

  // ---------------------------------------------------------------- the chain validator

  predicate BackupIntact(w: World, b: BackupRef) {
    && b.path in w.backups
    && w.backups[b.path].inode == b.inode
    && w.backups[b.path].content.Some?
    && Sha256(w.backups[b.path].content.value) == b.sha
  }

  predicate ReceiptSound(w: World, r: Receipt, bind: Binding) {
    && (r.version.RecertificationV? <==> r.recertification.Some?)
    && !r.stage.OtherStage?
    && r.bind == bind
    && BackupIntact(w, r.backup)
  }

  /** The one-off bridge: a recertification naming the stale completed receipt below it. */
  predicate Bridges(upper: Receipt, lower: Receipt) {
    && upper.version.RecertificationV? && upper.stage.Completed?
    && !upper.changed && upper.missing == {}
    && upper.invBefore == upper.invAfter && upper.dbBefore == upper.dbAfter
    && upper.recertification == Some(Bridge(Sha256(lower), lower.dbAfter, upper.dbAfter))
  }

  predicate Continuous(upper: Receipt, lower: Receipt) {
    && lower.invAfter == upper.invBefore
    && (lower.dbAfter == upper.dbBefore || Bridges(upper, lower))
  }

  /** What the predecessor walk accepts, as a recursion on the chain. */
  predicate Accepts(w: World, r: Receipt, bind: Binding)
    decreases r
  {
    && ReceiptSound(w, r, bind)
    && (r.previous.Some? ==>
          var lower := r.previous.value.of;
          && Read(w, r.previous.value).Some?
          && Continuous(r, lower)
          && Accepts(w, lower, bind))
  }

  /** Whether the walk goes on from a receipt to the one below it, accepted or not in the end. */
  predicate WalksOn(w: World, r: Receipt, above: Option<Receipt>, bind: Binding) {
    && ReceiptSound(w, r, bind) && (above.Some? ==> Continuous(above.value, r))
    && r.previous.Some? && Read(w, r.previous.value).Some?
  }

  /** How many receipts the walk reads before it stops. */
  function Reads(w: World, r: Receipt, above: Option<Receipt>, bind: Binding): nat
    decreases r
  {
    if WalksOn(w, r, above, bind) then 1 + Reads(w, r.previous.value.of, Some(r), bind) else 0
  }

  // ---------------------------------------------------------------- one run of the command

  /** The durable effect after which a run is killed, if any. */
  datatype Stop = RunsToEnd | DuringBackup | AfterBackup | AfterDatabase | AfterReceipt

  /** What the schema transaction did.  Nothing is assumed about it: the command checks. */
  datatype Effect =
    | Raises(after: Database)
    | Commits(after: Database, changed: bool, missing: set<string>)

  /** `preflight`: port closed, no live pid, no holders, world and launch receipt match.
      `quiet`: no SQLite sidecar file and a clean quick check. */
  datatype AdmitCall = AdmitCall(
    preflight: bool, resume: Option<Name>, cli: CliSource, plan: set<string>,
    effect: Effect, inode: nat, stop: Stop)

  datatype RecertifyCall = RecertifyCall(
    preflight: bool, historical: Option<Name>, plan: set<string>, quiet: bool, inode: nat, stop: Stop)

  datatype Call = Admit(admission: AdmitCall) | Recertify(recertification: RecertifyCall)

  datatype Outcome =
    | Refused | Killed | AuditStop
    | AlreadyAdmitted(name: Name) | Admitted(name: Name)
    | RolledBackAs(name: Name) | Recertified(name: Name)

  datatype Step = Step(world: World, outcome: Outcome)

  function WithBackup(w: World, inode: nat): World {
    if Sha256(w.db) in w.backups then w
    else w.(backups := w.backups[Sha256(w.db) := Backup(inode, Some(w.db))])
  }

  predicate BackupUsable(w: World) {
    Sha256(w.db) in w.backups && w.backups[Sha256(w.db)].content == Some(w.db)
  }

  function BackupRefOf(w: World): BackupRef
    requires BackupUsable(w)
  {
    BackupRef(Sha256(w.db), w.backups[Sha256(w.db)].inode, Sha256(w.db))
  }

  function Persist(w: World, r: Receipt, stop: Stop, done: Outcome): Step {
    match Write(w, r, stop.AfterReceipt?)
    case Stored(w') => Step(w', done)
    case Torn(w') => Step(w', Killed)
    case Collision => Step(w, AuditStop)
  }

  function TransactionReceipt(
    before: World, after: Database, bind: Binding, stage: Stage,
    previous: Option<Name>, changed: bool, missing: set<string>): Receipt
    requires BackupUsable(before)
  {
    Receipt(AdmissionV, stage, bind, InventoryOf(before.db), InventoryOf(after),
            BackupRefOf(before), Sha256(before.db), Sha256(after), previous, changed, missing, None)
  }

  /** The transaction on a backed-up database, its checks and its receipt. */
  function RunBackedUp(w: World, c: AdmitCall, bind: Binding, previous: Option<Name>): Step
    requires BackupUsable(w)
  {
    var after := c.effect.after;
    var w' := w.(db := after);
    match c.effect
    case Raises(_) =>
      if InventoryOf(after) != InventoryOf(w.db) || after.tip != w.db.tip then Step(w', AuditStop)
      else if c.stop.AfterDatabase? then Step(w', Killed)
      else
        var r := TransactionReceipt(w, after, bind, RolledBack, previous, false, MissingOf(w.db, c.plan));
        Persist(w', r, c.stop, RolledBackAs(Sha256(r)))
    case Commits(_, changed, missing) =>
      if || after.tip != w.db.tip || MissingOf(after, c.plan) != {} || after.malformed
         || (InventoryOf(after) == InventoryOf(w.db) && MissingOf(w.db, c.plan) != {})
      then Step(w', AuditStop)
      else if c.stop.AfterDatabase? then Step(w', Killed)
      else
        var r := TransactionReceipt(w, after, bind, Completed, previous, changed, missing);
        Persist(w', r, c.stop, Admitted(Sha256(r)))
  }

  function RunTransaction(w: World, c: AdmitCall, bind: Binding, previous: Option<Name>): Step
  {
    if c.stop.DuringBackup? && Sha256(w.db) !in w.backups then
      Step(w.(backups := w.backups[Sha256(w.db) := Backup(c.inode, None)]), Killed)
    else
      var w1 := WithBackup(w, c.inode);
      if !BackupUsable(w1) then Step(w1, Refused)
      else if c.stop.DuringBackup? || c.stop.AfterBackup? then Step(w1, Killed)
      else RunBackedUp(w1, c, bind, previous)
  }

  function AdmitStep(w: World, c: AdmitCall): Step
  {
    var own := Binding(w.identity, Source(w.db.tip, c.cli), c.plan);
    if !c.preflight || w.db.malformed then Step(w, Refused)
    else if c.resume.None? then RunTransaction(w, c, own, None)
    else
      var name := c.resume.value;
      if Read(w, name).None? then Step(w, Refused)
      else
        var prior := name.of;
        var historic := prior.version.RecertificationV?;
        var bind := if historic then own.(source := prior.bind.source) else own;
        var current := && prior.invAfter == InventoryOf(w.db) && prior.dbAfter == Sha256(w.db);
        if historic && !(prior.bind.source.cli.canonical && prior.bind.source.tip == w.db.tip)
        then Step(w, Refused)
        else if !Accepts(w, prior, bind) || !current then Step(w, Refused)
        else if prior.stage.Completed? then
          if MissingOf(w.db, c.plan) != {} then Step(w, Refused) else Step(w, AlreadyAdmitted(name))
        else RunTransaction(w, c, bind, Some(name))
  }

  function RecertificationReceipt(w: World, historical: Receipt): Receipt
    requires BackupUsable(w)
  {
    Receipt(RecertificationV, Completed, historical.bind,
            InventoryOf(w.db), InventoryOf(w.db), BackupRefOf(w), Sha256(w.db), Sha256(w.db),
            Some(Sha256(historical)), false, {},
            Some(Bridge(Sha256(historical), historical.dbAfter, Sha256(w.db))))
  }

  predicate Recertifiable(w: World, h: Receipt, plan: set<string>) {
    && h.version.AdmissionV? && h.stage.Completed? && h.changed
    && h.bind.source.cli.canonical
    && h.bind.identity == w.identity && h.bind.plan == plan
    && Accepts(w, h, h.bind)
    && h.dbAfter != Sha256(w.db)
    && MissingOf(w.db, plan) == {} && !w.db.malformed
    && h.bind.source.tip == w.db.tip
    && InventoryOf(w.db) == h.invAfter
  }

  function RecertifyStep(w: World, c: RecertifyCall): Step
  {
    if !c.preflight || !c.quiet || c.historical.None? || Read(w, c.historical.value).None?
       || !Recertifiable(w, c.historical.value.of, c.plan)
    then Step(w, Refused)
    else if c.stop.DuringBackup? && Sha256(w.db) !in w.backups then
      Step(w.(backups := w.backups[Sha256(w.db) := Backup(c.inode, None)]), Killed)
    else
      var w1 := WithBackup(w, c.inode);
      if !BackupUsable(w1) then Step(w1, Refused)
      else if !c.stop.RunsToEnd? && !c.stop.AfterReceipt? then Step(w1, Killed)
      else
        var r := RecertificationReceipt(w1, c.historical.value.of);
        Persist(w1, r, c.stop, Recertified(Sha256(r)))
  }

  function Run(w: World, c: Call): Step {
    match c
    case Admit(a) => AdmitStep(w, a)
    case Recertify(r) => RecertifyStep(w, r)
  }
}
