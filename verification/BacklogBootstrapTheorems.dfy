/** Crash recovery of the backlog bootstrap over every history of runs. */
module BacklogBootstrapTheorems {
  import opened Common
  import opened BacklogBootstrap

  /** The content SQLite would show: the leftover sidecar's, or the main file's. */
  function Visible(w: World): Db {
    if w.sidecar.Some? then w.sidecar.value else w.main
  }

  predicate PreOrPost(p: Pending, db: Db) {
    Sha256(db) == p.before || PostimageOf(p, db)
  }

  /** A pending receipt bound to a pristine preimage that is still backed up. */
  predicate PendingSound(w: World, p: Pending) {
    && p.inode == w.inode && Pristine(p.before.of, p.source)
    && p.before in w.backups && w.backups[p.before] == Some(p.before.of)
    && p.guarded == p.before.of.guarded && p.guardedSchema == p.before.of.guardedSchema
    && PreOrPost(p, w.main) && PreOrPost(p, Visible(w))
  }

  ghost predicate Inv(w: World) {
    && |w.pendings| <= 1 && |w.completed| <= 1
    && (w.pendings == {} ==> Visible(w) == w.main)
    && (forall p :: p in w.pendings ==> PendingSound(w, p))
    && (forall done :: done in w.completed ==>
          && w.pendings == {done.pending.of} && w.sidecar.None?
          && PostimageOf(done.pending.of, w.main)
          && done == CompletedFor(done.pending.of, w.main, done.mode))
  }

  lemma ImportKeepsInv(w: World, c: Call, p: Pending)
    requires Inv(w) && w.pendings == {p} && w.completed == {} && w.sidecar.None?
    requires Sha256(w.main) == p.before
    ensures Inv(Import(w, c, p).world)
  {
  }

  lemma FirstKeepsInv(w: World, c: Call)
    requires w.pendings == {} && w.completed == {} && w.sidecar.None?
    ensures Inv(First(w, c).world)
  {
    var w1 := w.(backups := w.backups[Sha256(w.main) := Some(w.main)]);
    if First(w, c).world.pendings != {} {
      var p := PendingFor(w, c);
      ImportKeepsInv(w1.(pendings := {p}), c, p);
      assert w.pendings + {p} == {p};
    }
  }

  lemma RunKeepsInv(w: World, c: Call)
    requires Inv(w)
    ensures Inv(Run(w, c).world)
  {
    if c.preflight && w.sidecar.None? && w.completed == {} {
      if w.pendings == {} {
        FirstKeepsInv(w, c);
      } else {
        var p := Sole(w.pendings);
        TheSole(w.pendings, p);
        if Sha256(w.main) == p.before {
          ImportKeepsInv(w, c, p);
        }
      }
    }
  }

  datatype Event = Ran(call: Call) | Settled

  ghost function After(w: World, events: seq<Event>): World {
    if events == [] then w
    else
      var w' := After(w, events[..|events| - 1]);
      match events[|events| - 1]
      case Ran(call) => Run(w', call).world
      case Settled => Settle(w')
  }

  predicate Untouched(w: World) {
    w.sidecar.None? && w.backups == map[] && w.pendings == {} && w.completed == {}
  }

  lemma {:induction false} HistoryKeepsInv(w: World, events: seq<Event>)
    requires Untouched(w)
    ensures Inv(After(w, events))
  {
    if events != [] {
      HistoryKeepsInv(w, events[..|events| - 1]);
      var w' := After(w, events[..|events| - 1]);
      match events[|events| - 1]
      case Ran(call) => RunKeepsInv(w', call);
      case Settled =>
    }
  }

  /** The same operator inputs as the run that wrote the pending receipt, run to the end,
      with a transaction body that writes the promised postimage. */
  predicate Repeats(c: Call, p: Pending) {
    && c.preflight && c.source == p.source && c.chain == Some(p.ancestry.chain)
    && c.written.Some? && PostimageOf(p, c.written.value) && c.checkpoints && c.stop.RunsToEnd?
  }

  /** Once a pending receipt is durable and no sidecar is left, a repeated run retries from the
      exact preimage or finalizes the exact postimage, never anything else; and then the
      backlog equals the source while every protected row and schema object is the preimage's. */
  lemma PendingIsAlwaysResumable(w: World, events: seq<Event>, p: Pending, c: Call)
    requires Untouched(w)
    requires var now := After(w, events);
      p in now.pendings && now.sidecar.None? && now.completed == {}
    requires Repeats(c, p)
    ensures var now := After(w, events); var s := Run(now, c);
      && s.outcome == (if Sha256(now.main) == p.before then Bootstrapped else Finalized)
      && s.world.completed != {} && s.world.sidecar.None?
      && s.world.main.backlog == c.source.projection && s.world.main.managed.Canonical?
      && s.world.main.guarded == p.before.of.guarded
      && s.world.main.guardedSchema == p.before.of.guardedSchema
      && (s.outcome.Finalized? ==> s.world.main == now.main)
  {
    HistoryKeepsInv(w, events);
    var now := After(w, events);
    assert |now.pendings| == 1 by { assert now.pendings != {}; }
    TheSole(now.pendings, p);
  }

  /** A completed bootstrap is replayed as such, without changing anything, by every repeat. */
  lemma CompletedIsReplayed(w: World, events: seq<Event>, done: Completed, c: Call)
    requires Untouched(w) && done in After(w, events).completed
    requires c.preflight && c.source == done.source && c.chain == Some(done.ancestry.chain)
    ensures Run(After(w, events), c) == Step(After(w, events), AlreadyBootstrapped)
    ensures After(w, events).main.backlog == done.source.projection
  {
    HistoryKeepsInv(w, events);
    var now := After(w, events);
    assert |now.completed| == 1 by { assert now.completed != {}; }
    TheSole(now.completed, done);
  }

  /** No run, crashed or not, ever loses protected data: whatever is visible has the
      protected rows and schema the target started with. */
  lemma {:induction false} ProtectedDataIsConserved(w: World, events: seq<Event>)
    requires Untouched(w)
    ensures var now := After(w, events);
      && now.main.guarded == w.main.guarded && now.main.guardedSchema == w.main.guardedSchema
      && Visible(now).guarded == w.main.guarded && Visible(now).guardedSchema == w.main.guardedSchema
  {
    if events != [] {
      var before := After(w, events[..|events| - 1]);
      ProtectedDataIsConserved(w, events[..|events| - 1]);
      HistoryKeepsInv(w, events[..|events| - 1]);
      if events[|events| - 1].Ran? && |before.pendings| == 1 {
        assert PendingSound(before, Sole(before.pendings));
      }
    }
  }

  // ---------------------------------------------------------------- before the pending receipt

  /** A first run could still back this database up and import into it. */
  predicate Importable(w: World) {
    Sha256(w.main) !in w.backups && w.main.backlog.rows == [] && !w.main.managed.Drifted?
  }

  predicate Barren(w: World) {
    w.pendings == {} && w.completed == {} && Visible(w) == w.main && !Importable(w)
  }

  /** The same but for sidecar files that add nothing. */
  predicate SameButSidecar(w: World, w': World) {
    w' == w.(sidecar := w'.sidecar) && Visible(w') == Visible(w)
  }

  /** Without a pending receipt, a database that cannot be imported into never changes again. */
  lemma {:induction false} BarrenForEver(w: World, events: seq<Event>)
    requires Barren(w)
    ensures SameButSidecar(w, After(w, events)) && Barren(After(w, events))
  {
    if events != [] {
      BarrenForEver(w, events[..|events| - 1]);
    }
  }

  /** Before the pending receipt there is no way back: a crash between the backup and the
      receipt leaves a backup that makes every later run refuse. */
  lemma OrphanBackupIsStuck(w: World, events: seq<Event>)
    requires Visible(w) == w.main && w.pendings == {} && w.completed == {} && Sha256(w.main) in w.backups
    ensures SameButSidecar(w, After(w, events)) && After(w, events).completed == {}
  {
    BarrenForEver(w, events);
  }

  /** A first run that stops without a pending receipt has either changed nothing, because it
      refused, or left an orphan backup that no later run can get past. */
  lemma KilledBeforePending(w: World, c: Call)
    requires Untouched(w) && Run(w, c).world.pendings == {}
    ensures Run(w, c).world.backups == map[] <==> Run(w, c).outcome.Refused?
    ensures Run(w, c).world.backups != map[] ==>
      forall events :: SameButSidecar(Run(w, c).world, After(Run(w, c).world, events))
  {
    if Run(w, c).world.backups != map[] {
      assert Sha256(w.main) in Run(w, c).world.backups;
      forall events ensures SameButSidecar(Run(w, c).world, After(Run(w, c).world, events)) {
        OrphanBackupIsStuck(Run(w, c).world, events);
      }
    }
  }

  ghost predicate Completable(w: World) {
    exists more :: After(w, more).completed != {}
  }

  lemma SettledThenRun(w: World, c: Call)
    ensures After(w, [Settled, Ran(c)]) == Run(Settle(w), c).world
  {
    var one, two := [Settled], [Settled, Ran(c)];
    assert one[..|one| - 1] == [];
    assert After(w, one) == Settle(w);
    assert two[..|two| - 1] == one;
  }

  /** An operator call whose transaction writes what the pending receipt promises. */
  function CallFor(source: Source, chain: nat, db: Db): Call {
    Call(true, source, Some(chain), Some(Db(source.projection, Canonical, 0, db.guarded, db.guardedSchema)),
         true, RunsToEnd, false)
  }

  lemma PendingIsCompletable(w: World, events: seq<Event>, p: Pending)
    requires Untouched(w) && p in After(w, events).pendings && After(w, events).completed == {}
    ensures Completable(After(w, events))
  {
    var now := After(w, events);
    var longer := events + [Settled];
    assert longer[..|longer| - 1] == events;
    HistoryKeepsInv(w, events);
    var c := CallFor(p.source, p.ancestry.chain, p.before.of);
    PendingIsAlwaysResumable(w, longer, p, c);
    SettledThenRun(now, c);
  }

  lemma ImportableIsCompletable(w: World)
    requires w.pendings == {} && w.completed == {} && Visible(w) == w.main && Importable(w)
    ensures Completable(w)
  {
    var c := CallFor(Source(0, Projection(w.main.backlog.schema, [])), 0, w.main);
    SettledThenRun(w, c);
    assert Run(Settle(w), c).outcome == Bootstrapped;
  }

  /** Backlog bootstrap, exact extent: after every history of runs and crashes a bootstrap that is not
      complete can still be completed exactly when its pending receipt is there, or the database is
      still unimported and not backed up yet. */
  lemma CompletableExactlyWhen(w: World, events: seq<Event>)
    requires Untouched(w) && After(w, events).completed == {}
    ensures var now := After(w, events); Completable(now) <==> now.pendings != {} || Importable(now)
  {
    var now := After(w, events);
    HistoryKeepsInv(w, events);
    if p :| p in now.pendings {
      PendingIsCompletable(w, events, p);
    } else if Importable(now) {
      ImportableIsCompletable(now);
    } else {
      forall more ensures After(now, more).completed == {} {
        BarrenForEver(now, more);
      }
    }
  }
}
