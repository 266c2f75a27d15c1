/** Offline dashboard backlog bootstrap (agent/cli.py): copy one table into the stopped dev
    database behind a write-ahead receipt, and decide after a crash whether to retry from
    the exact preimage or to finalize the exact postimage. */
module BacklogBootstrap {
  import opened Common

  /** The backlog table: its schema and its rows in primary-key order. */
  datatype Projection = Projection(schema: nat, rows: seq<string>)

  /** The five managed objects are all absent, all exact, or neither. */
  datatype Managed = Absent | Canonical | Drifted

  /** Every other table.  The world identity is read from one of them. */
  datatype Protected = Protected(identity: nat, rest: nat)

  datatype Db = Db(
    backlog: Projection, managed: Managed, generation: nat, guarded: Protected, guardedSchema: nat)

  /** The historical source database: its file identity and its backlog table. */
  datatype Source = Source(file: nat, projection: Projection)

  datatype Ancestry = Ancestry(chain: nat, database: Digest<Db>)

  datatype Pending = Pending(
    source: Source, inode: nat, before: Digest<Db>, guarded: Protected, guardedSchema: nat,
    ancestry: Ancestry)

  datatype PendingSha = PendingSha(of: Pending)

  datatype Mode = Imported | FinalizedPostimage

  datatype Completed = Completed(
    pending: PendingSha, source: Source, before: Digest<Db>, after: Digest<Db>,
    managed: Managed, guardedSchema: nat, identity: nat, ancestry: Ancestry, mode: Mode)

  /** `sidecar` is the content SQLite will settle on when a WAL or journal file is left over.
      A backup is None when its copy was interrupted. */
  datatype World = World(
    main: Db, sidecar: Option<Db>, inode: nat, backups: map<Digest<Db>, Option<Db>>,
    pendings: set<Pending>, completed: set<Completed>)

  datatype Stop =
    | RunsToEnd | DuringBackup | AfterBackup | AfterPending | InTransaction | AfterCommit | AfterCheckpoint

  /** `preflight`: canonical root, stopped port, no holders.  `chain`: the stopped launch
      generation the ancestry reader finds.  `written`: what the transaction body left, or None
      if it raised; nothing is assumed about it.  `lingering`: a kill with nothing uncommitted
      finds the connection still open, so its WAL files stay behind although they add nothing. */
  datatype Call = Call(
    preflight: bool, source: Source, chain: Option<nat>, written: Option<Db>, checkpoints: bool,
    stop: Stop, lingering: bool)

  datatype Outcome =
    | Refused | Held | Failed | Killed | AlreadyBootstrapped | Bootstrapped | Finalized

  datatype Step = Step(world: World, outcome: Outcome)

  predicate ReplayMatches(w: World, c: Call, prior: Completed) {
    && prior.pending.of in w.pendings
    && c.chain == Some(prior.ancestry.chain)
    && prior.source == c.source
    && prior.after == Sha256(w.main)
    && prior.managed == w.main.managed && prior.guardedSchema == w.main.guardedSchema
    && prior.identity == w.main.guarded.identity
  }

  predicate PendingMatches(w: World, c: Call, p: Pending) {
    && p.source == c.source && p.inode == w.inode
    && p.guarded.identity == w.main.guarded.identity
    && p.before in w.backups && w.backups[p.before] == Some(p.before.of)
    && c.chain == Some(p.ancestry.chain)
  }

  /** The exact postimage a pending receipt promises. */
  predicate PostimageOf(p: Pending, db: Db) {
    && db.backlog == p.source.projection
    && db.managed.Canonical?
    && db.guarded == p.guarded && db.guardedSchema == p.guardedSchema
  }

  predicate Pristine(db: Db, source: Source) {
    && db.backlog.rows == [] && db.backlog.schema == source.projection.schema
    && !db.managed.Drifted?
  }

  function CompletedFor(p: Pending, after: Db, mode: Mode): Completed {
    Completed(PendingSha(p), p.source, p.before, Sha256(after), after.managed, after.guardedSchema,
              after.guarded.identity, p.ancestry, mode)
  }

  function PendingFor(w: World, c: Call): Pending
    requires c.chain.Some?
  {
    Pending(c.source, w.inode, Sha256(w.main), w.main.guarded, w.main.guardedSchema,
            Ancestry(c.chain.value, Sha256(w.main)))
  }

  /** What a kill leaves of a connection that has nothing pending. */
  function Linger(w: World, c: Call): World {
    if c.lingering then w.(sidecar := Some(w.main)) else w
  }

  /** The transaction, its checkpoint and the completed receipt, under a durable pending. */
  function Import(w: World, c: Call, p: Pending): Step {
    if c.stop.AfterPending? then Step(Linger(w, c), Killed)
    else if c.stop.InTransaction? then Step(w.(sidecar := Some(w.main)), Killed)
    else if c.written.None? || !PostimageOf(p, c.written.value) then Step(w, Failed)
    else if c.stop.AfterCommit? then Step(w.(sidecar := c.written), Killed)
    else if !c.checkpoints then Step(w.(sidecar := c.written), Failed)
    else
      var w' := w.(main := c.written.value);
      if c.stop.AfterCheckpoint? then Step(Linger(w', c), Killed)
      else Step(w'.(completed := w.completed + {CompletedFor(p, w'.main, Imported)}), Bootstrapped)
  }

  function Resume(w: World, c: Call, p: Pending): Step {
    if !PendingMatches(w, c, p) then Step(w, Refused)
    else if Sha256(w.main) != p.before then
      if PostimageOf(p, w.main) then
        Step(w.(completed := w.completed + {CompletedFor(p, w.main, FinalizedPostimage)}), Finalized)
      else Step(w, Held)
    else if !Pristine(w.main, c.source) then Step(w, Refused)
    else Import(w, c, p)
  }

  function First(w: World, c: Call): Step {
    if c.chain.None? || !Pristine(w.main, c.source) || Sha256(w.main) in w.backups then Step(w, Refused)
    else if c.stop.DuringBackup? then
      Step(Linger(w.(backups := w.backups[Sha256(w.main) := None]), c), Killed)
    else
      var w1 := w.(backups := w.backups[Sha256(w.main) := Some(w.main)]);
      if c.stop.AfterBackup? then Step(Linger(w1, c), Killed)
      else
        var p := PendingFor(w, c);
        Import(w1.(pendings := w.pendings + {p}), c, p)
  }

  ghost function Run(w: World, c: Call): Step {
    if !c.preflight || w.sidecar.Some? then Step(w, Refused)
    else if w.completed != {} then
      if |w.completed| == 1 && ReplayMatches(w, c, Sole(w.completed))
      then Step(w, AlreadyBootstrapped)
      else Step(w, Refused)
    else if w.pendings == {} then First(w, c)
    else if |w.pendings| == 1 then Resume(w, c, Sole(w.pendings))
    else Step(w, Refused)
  }

  /** Opening the database outside the command settles a leftover WAL or journal. */
  function Settle(w: World): World {
    if w.sidecar.Some? then w.(main := w.sidecar.value, sidecar := None) else w
  }

  // ---------------------------------------------------------------- in place

  class Target {
    var main: Db
    var sidecar: Option<Db>
    const inode: nat
    var backups: map<Digest<Db>, Option<Db>>
    var pendings: set<Pending>
    var completed: set<Completed>

    function View(): World
      reads this
    {
      World(main, sidecar, inode, backups, pendings, completed)
    }

    constructor (db: Db, inode: nat)
      ensures View() == World(db, None, inode, map[], {}, {})
    {
      this.main, this.sidecar, this.inode := db, None, inode;
      this.backups, this.pendings, this.completed := map[], {}, {};
    }

    method Linger(c: Call)
      modifies this`sidecar
      ensures sidecar == if c.lingering then Some(main) else old(sidecar)
    {
      if c.lingering {
        sidecar := Some(main);
      }
    }

    method Bootstrap(c: Call) returns (outcome: Outcome)
      modifies this
      ensures Step(View(), outcome) == Run(old(View()), c)
    {
      if !c.preflight || sidecar.Some? {
        return Refused;
      }
      if completed != {} {
        if |completed| != 1 {
          return Refused;
        }
        var prior :| prior in completed;
        TheSole(completed, prior);
        return if ReplayMatches(View(), c, prior) then AlreadyBootstrapped else Refused;
      }
      var p;
      if pendings == {} {
        if c.chain.None? || !Pristine(main, c.source) || Sha256(main) in backups {
          return Refused;
        }
        if c.stop.DuringBackup? {
          backups := backups[Sha256(main) := None];
          Linger(c);
          return Killed;
        }
        backups := backups[Sha256(main) := Some(main)];
        if c.stop.AfterBackup? {
          Linger(c);
          return Killed;
        }
        p := PendingFor(View(), c);
        pendings := pendings + {p};
      } else {
        if |pendings| != 1 {
          return Refused;
        }
        p :| p in pendings;
        TheSole(pendings, p);
        if !PendingMatches(View(), c, p) {
          return Refused;
        }
        if Sha256(main) != p.before {
          if !PostimageOf(p, main) {
            return Held;
          }
          completed := completed + {CompletedFor(p, main, FinalizedPostimage)};
          return Finalized;
        }
        if !Pristine(main, c.source) {
          return Refused;
        }
      }
      if c.stop.AfterPending? {
        Linger(c);
        return Killed;
      }
      if c.stop.InTransaction? {
        sidecar := Some(main);
        return Killed;
      }
      if c.written.None? || !PostimageOf(p, c.written.value) {
        return Failed;
      }
      if c.stop.AfterCommit? || !c.checkpoints {
        sidecar := c.written;
        return if c.stop.AfterCommit? then Killed else Failed;
      }
      main := c.written.value;
      if c.stop.AfterCheckpoint? {
        Linger(c);
        return Killed;
      }
      completed := completed + {CompletedFor(p, main, Imported)};
      return Bootstrapped;
    }
  }
}
