/** When a bootstrap run ends how, said of the directory, the two databases and the call. */
module BacklogBootstrapOutcomes {
  import opened Common
  import opened BacklogBootstrap
  import opened BacklogBootstrapTheorems

  predicate Startable(w: World, c: Call) {
    c.preflight && w.sidecar == None
  }

  /** What the transaction has to leave: the source's backlog, the managed objects, and all the rest as the
      pending receipt says it was. */
  predicate Promised(p: Pending, db: Db) {
    && db.backlog == p.source.projection && db.managed == Canonical
    && db.guarded == p.guarded && db.guardedSchema == p.guardedSchema
  }

  /** The backlog is empty, has the source's schema, and its managed objects are all absent or all exact. */
  predicate Fits(db: Db, source: Source) {
    db.backlog == Projection(source.projection.schema, []) && db.managed != Drifted
  }

  /** The pending receipt that a first run owes. */
  function Owed(w: World, c: Call, chain: nat): Pending {
    Pending(c.source, w.inode, Sha256(w.main), w.main.guarded, w.main.guardedSchema, Ancestry(chain, Sha256(w.main)))
  }

  predicate FirstOpens(w: World, c: Call, chain: nat) {
    && Startable(w, c) && w.completed == {} && w.pendings == {}
    && c.chain == Some(chain) && Fits(w.main, c.source) && Sha256(w.main) !in w.backups
  }

  /** The pending receipt is this source's, this file's and this generation's, and its backup is whole. */
  predicate Resumes(w: World, c: Call, p: Pending) {
    && Startable(w, c) && w.completed == {} && w.pendings == {p}
    && p.source == c.source && p.inode == w.inode && p.guarded.identity == w.main.guarded.identity
    && p.before in w.backups && w.backups[p.before] == Some(p.before.of) && c.chain == Some(p.ancestry.chain)
  }

  predicate Retries(w: World, c: Call, p: Pending) {
    Resumes(w, c, p) && Sha256(w.main) == p.before && Fits(w.main, c.source)
  }

  /** The bootstrap as it is completed. */
  function Done(w: World, p: Pending, main: Db, mode: Mode): Completed {
    Completed(PendingSha(p), p.source, p.before, Sha256(main), main.managed, main.guardedSchema, main.guarded.identity,
              p.ancestry, mode)
  }

  function Finished(w: World, p: Pending, main: Db, mode: Mode): World {
    World(main, None, w.inode, w.backups[p.before := Some(p.before.of)], {p}, {Done(w, p, main, mode)})
  }

  /** A run that gets to its transaction under this pending receipt. */
  predicate Imports(w: World, c: Call, p: Pending) {
    || (c.chain.Some? && FirstOpens(w, c, c.chain.value) && p == Owed(w, c, c.chain.value)
        && c.stop != DuringBackup && c.stop != AfterBackup)
    || Retries(w, c, p)
  }

  /** First run, exactly: it is refused unless it opens; it is killed with only a backup; or it writes its
      pending receipt and imports. */
  lemma FirstExactly(w: World, c: Call)
    requires w.completed == {} && w.pendings == {}
    ensures var s := Run(w, c); var open := c.chain.Some? && FirstOpens(w, c, c.chain.value);
      && (s.outcome == Refused <==> !open)
      && (!open ==> s == Step(w, Refused))
      && (open && (c.stop == DuringBackup || c.stop == AfterBackup) ==>
            var copy := if c.stop == DuringBackup then None else Some(w.main);
            s == Step(World(w.main, if c.lingering then Some(w.main) else None, w.inode,
                            w.backups[Sha256(w.main) := copy], {}, {}), Killed))
      && (open && c.stop != DuringBackup && c.stop != AfterBackup ==>
            s.world.pendings == {Owed(w, c, c.chain.value)}
            && s.world.backups == w.backups[Sha256(w.main) := Some(w.main)])
  {
  }

  /** The files beside the database after an import: of an open transaction, of one that committed without
      its checkpoint, or of a connection killed with nothing pending. */
  function SidecarLeft(w: World, c: Call, good: bool): Option<Db> {
    if c.stop == AfterPending then if c.lingering then Some(w.main) else None
    else if c.stop == InTransaction then Some(w.main)
    else if !good then None
    else if c.stop == AfterCommit || !c.checkpoints then c.written
    else if c.stop == AfterCheckpoint && c.lingering then c.written
    else None
  }

  /** Import, exactly: with any source, empty or not, a first run or a retry that gets to its transaction ends
      bootstrapped when it runs to its end, the transaction left what was promised and the checkpoint
      succeeded; and then the database is what the transaction left and the directory says so. */
  lemma ImportExactly(w: World, c: Call, p: Pending)
    requires Imports(w, c, p)
    ensures var s := Run(w, c); var good := c.written.Some? && Promised(p, c.written.value);
      && (s.outcome == Bootstrapped <==>
            good && c.checkpoints && c.stop !in {AfterPending, InTransaction, AfterCommit, AfterCheckpoint})
      && (s.outcome == Bootstrapped ==> s.world == Finished(w, p, c.written.value, Imported))
      && (s.outcome == Failed <==> c.stop !in {AfterPending, InTransaction} && (!good || (c.stop != AfterCommit && !c.checkpoints)))
      && (s.outcome == Killed <==>
            || c.stop in {AfterPending, InTransaction}
            || (good && (c.stop == AfterCommit || (c.checkpoints && c.stop == AfterCheckpoint))))
      && s.outcome in {Bootstrapped, Failed, Killed} && s.world.pendings == {p}
      && s.world.main == (if s.outcome == Bootstrapped || (c.stop == AfterCheckpoint && good && c.checkpoints)
                          then c.written.value else w.main)
      && s.world.sidecar == SidecarLeft(w, c, good)
  {
    if w.pendings == {p} {
      TheSole(w.pendings, p);
      assert w.backups[p.before := Some(p.before.of)] == w.backups;
    }
    assert {} + {p} == {p};
  }

  /** Resume, exactly: refused unless the pending receipt matches; otherwise the preimage is imported again,
      any other database is finalized when it is what was promised, and held when it is not. */
  lemma ResumeExactly(w: World, c: Call, p: Pending)
    requires w.completed == {} && w.pendings == {p}
    ensures var s := Run(w, c); var elsewhere := Sha256(w.main) != p.before;
      && (s.outcome == Finalized <==> Resumes(w, c, p) && elsewhere && Promised(p, w.main))
      && (s.outcome == Finalized ==> s.world == Finished(w, p, w.main, FinalizedPostimage))
      && (s.outcome == Held <==> Resumes(w, c, p) && elsewhere && !Promised(p, w.main))
      && (s.outcome == Refused <==> !Resumes(w, c, p) || (!elsewhere && !Fits(w.main, c.source)))
      && (s.outcome == Held || s.outcome == Refused ==> s.world == w)
  {
    TheSole(w.pendings, p);
    if Resumes(w, c, p) {
      assert w.backups[p.before := Some(p.before.of)] == w.backups;
    }
  }

  /** The completed receipt names the pending one that is there, this source and this generation, and says
      what the database is. */
  predicate StillHolds(w: World, c: Call, done: Completed) {
    && done.pending.of in w.pendings && c.chain == Some(done.ancestry.chain) && done.source == c.source
    && done.after == Sha256(w.main) && done.managed == w.main.managed && done.guardedSchema == w.main.guardedSchema
    && done.identity == w.main.guarded.identity
  }

  /** Replay, exactly: beside a completed receipt nothing is ever changed, and the answer is already
      bootstrapped when that receipt still holds. */
  lemma ReplayExactly(w: World, c: Call, done: Completed)
    requires done in w.completed
    ensures var s := Run(w, c);
      && s.world == w
      && (s.outcome == AlreadyBootstrapped <==> Startable(w, c) && w.completed == {done} && StillHolds(w, c, done))
      && (s.outcome != AlreadyBootstrapped ==> s.outcome == Refused)
  {
    if |w.completed| == 1 {
      TheSole(w.completed, done);
    } else {
      assert w.completed != {done};
    }
  }

  /** Settling changes what is in the main file to what a leftover sidecar makes visible, and nothing else. */
  lemma SettleTells(w: World)
    ensures Settle(w) == w.(main := Visible(w), sidecar := None)
  {
  }

  // ---------------------------------------------------------------- by source

  /** Some later history completes the bootstrap from this very source. */
  ghost predicate CompletableFrom(w: World, source: Source) {
    exists more, done :: done in After(w, more).completed && done.source == source
  }

  /** Whatever rows the source has: an untouched bootstrap whose target is importable from it is completed by
      one run, with exactly the source's backlog. */
  lemma FirstRunCompletes(w: World, source: Source, chain: nat)
    requires w.completed == {} && w.pendings == {} && w.sidecar == None
    requires Fits(w.main, source) && Sha256(w.main) !in w.backups
    ensures var s := Run(w, CallFor(source, chain, w.main));
      && s.outcome == Bootstrapped && s.world.main.backlog == source.projection
      && exists done :: done in s.world.completed && done.source == source
  {
    var c := CallFor(source, chain, w.main);
    var p := Owed(w, c, chain);
    assert Imports(w, c, p) && Promised(p, c.written.value);
    ImportExactly(w, c, p);
    assert Done(w, p, c.written.value, Imported) in Run(w, c).world.completed;
  }

  lemma CompletedFromPending(w: World, events: seq<Event>, p: Pending)
    requires Untouched(w) && p in After(w, events).pendings && After(w, events).completed == {}
    ensures CompletableFrom(After(w, events), p.source)
  {
    HistoryKeepsInv(w, events);
    var now := After(w, events);
    assert |now.pendings| == 1;
    TheSole(now.pendings, p);
    assert now.pendings == {p};
    var settled := Settle(now);
    var c := CallFor(p.source, p.ancestry.chain, p.before.of);
    SettledThenRun(now, c);
    assert Resumes(settled, c, p);
    if Sha256(settled.main) == p.before {
      ImportExactly(settled, c, p);
    } else {
      ResumeExactly(settled, c, p);
    }
    var done :| done in Run(settled, c).world.completed;
    assert done in After(now, [Settled, Ran(c)]).completed && done.source == p.source;
  }

  /** Without a completed receipt, the source of a later one is that of the pending receipt, and a first run
      can only take a source that fits the target. */
  lemma {:induction false} SourceIsFixed(w: World, more: seq<Event>, source: Source)
    requires Inv(w) && w.completed == {}
    requires forall p :: p in w.pendings ==> p.source != source
    requires w.pendings == {} ==> Sha256(w.main) in w.backups || !Fits(w.main, source)
    ensures var u := After(w, more);
      && Inv(u) && (forall done :: done in u.completed ==> done.source != source)
      && (forall p :: p in u.pendings ==> p.source != source)
      && (u.pendings == {} ==> u.completed == {} && SameButSidecarAndBackups(w, u))
  {
    if more != [] {
      var before := After(w, more[..|more| - 1]);
      SourceIsFixed(w, more[..|more| - 1], source);
      match more[|more| - 1]
      case Settled =>
      case Ran(c) =>
        RunKeepsInv(before, c);
        SourceStep(before, c, source);
    }
  }

  predicate SameButSidecarAndBackups(w: World, u: World) {
    u.main == w.main && u.inode == w.inode && w.backups.Keys <= u.backups.Keys && w.pendings == {}
  }

  lemma SourceStep(w: World, c: Call, source: Source)
    requires Inv(w) && (forall done :: done in w.completed ==> done.source != source)
    requires forall p :: p in w.pendings ==> p.source != source
    requires w.pendings == {} ==> w.completed == {} && (Sha256(w.main) in w.backups || !Fits(w.main, source))
    ensures var u := Run(w, c).world;
      && (forall done :: done in u.completed ==> done.source != source)
      && (forall p :: p in u.pendings ==> p.source != source)
      && (u.pendings == {} ==> u.completed == {} && SameButSidecarAndBackups(w, u))
  {
    if done :| done in w.completed {
      ReplayExactly(w, c, done);
    } else if w.pendings == {} {
      FirstExactly(w, c);
      if c.chain.Some? && FirstOpens(w, c, c.chain.value) && c.stop != DuringBackup && c.stop != AfterBackup {
        ImportExactly(w, c, Owed(w, c, c.chain.value));
        ImportCompletes(w, c, Owed(w, c, c.chain.value));
      }
    } else {
      var p :| p in w.pendings;
      TheSole(w.pendings, p);
      ResumeExactly(w, c, p);
      if Retries(w, c, p) {
        ImportExactly(w, c, p);
        ImportCompletes(w, c, p);
      }
    }
  }

  lemma ImportCompletes(w: World, c: Call, p: Pending)
    requires Imports(w, c, p)
    ensures forall done :: done in Run(w, c).world.completed ==> done.source == p.source
  {
    if w.pendings == {p} {
      TheSole(w.pendings, p);
    }
  }

  /** Backlog bootstrap, exact extent by source: after every history, an incomplete bootstrap can still be
      completed from a given source exactly when its pending receipt is of that source, or there is none
      and the database is not backed up and importable from it. */
  lemma CompletableFromExactlyWhen(w: World, events: seq<Event>, source: Source)
    requires Untouched(w) && After(w, events).completed == {}
    ensures var now := After(w, events);
      CompletableFrom(now, source) <==>
        || (exists p :: p in now.pendings && p.source == source)
        || (now.pendings == {} && Sha256(now.main) !in now.backups && Fits(now.main, source))
  {
    var now := After(w, events);
    HistoryKeepsInv(w, events);
    if p :| p in now.pendings && p.source == source {
      CompletedFromPending(w, events, p);
    } else if now.pendings == {} && Sha256(now.main) !in now.backups && Fits(now.main, source) {
      var settled := Settle(now);
      FirstRunCompletes(settled, source, 0);
      SettledThenRun(now, CallFor(source, 0, settled.main));
      var done :| done in Run(settled, CallFor(source, 0, settled.main)).world.completed && done.source == source;
      assert done in After(now, [Settled, Ran(CallFor(source, 0, settled.main))]).completed;
    } else {
      forall more ensures forall done :: done in After(now, more).completed ==> done.source != source {
        SourceIsFixed(now, more, source);
      }
    }
  }
}
