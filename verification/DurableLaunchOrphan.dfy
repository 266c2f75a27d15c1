/** Why the full classification of crash recovery needs quiet runs. */
module DurableLaunchOrphan {
  import opened Common
  import opened DurableLaunch
  import opened DurableLaunchAttempts
  import opened DurableLaunchRuns
  import opened DurableLaunchRecovery

  /** The first launch forked and died; its child still boots. */
  function Orphaned(s: State, p: Pending): State {
    s.(lock := Some(p.id), nextId := p.id + 1, pendings := s.pendings + {p},
       children := s.children[s.nextPid := Child(p, Booting)], nextPid := s.nextPid + 1)
  }

  lemma ReachesOrphaned(s: State)
    requires Initial(s)
    ensures CanReach(s, Orphaned(s, Pending(s.nextId, s.db)))
  {
    assert Dead(s) == {} && LiveGenerations(s) == {} && DeadUnsealed(s) == {};
    ReachesPrepared(s);
    Then(s, Prepared(s), Handshaking(Fork));
    var forked := Do(Prepared(s), Handshaking(Fork));
    Then(s, forked, Stopping(OperatorDies));
    assert Do(forked, Stopping(OperatorDies)) == Orphaned(s, Pending(s.nextId, s.db));
  }

  /** A first attempt whose child still boots can be recovered as if custody would never be committed. */
  lemma OrphanOverlooked(s: State)
    requires s.operator.Idle? && s.launches == {} && s.readinesses == {} && s.lock.Some? && !Listening(s)
    requires s.pendings == {Pending(s.lock.value, s.db)} && s.seals == {}
    ensures ScanPasses(s) && Recoverable(s) && VerdictOf(s) == PreimageRetry(Pending(s.lock.value, s.db))
    ensures NothingRuns(s) && DeadUnsealed(s) == {}
  {
    var p := Pending(s.lock.value, s.db);
    assert PendingsOf(s, s.lock.value) == {p};
    TheSole(PendingsOf(s, s.lock.value), p);
    assert ReadinessOf(s, p) == {};
    assert Dead(s) == {} && DeadUnsealed(s) == {} && LiveGenerations(s) == {};
  }

  /** A later launch has released the lock and ended there. */
  function FirstRecovered(s: State, p: Pending): State {
    s.(lock := None, nextId := p.id + 1, pendings := {p}, nextPid := s.nextPid + 1,
       children := s.children[s.nextPid := Child(p, Booting)],
       seals := {PreimageRetryable(PendingSha(p), s.db)})
  }

  lemma ReachesFirstRecovered(s: State, p: Pending)
    requires Initial(s) && p == Pending(s.nextId, s.db)
    ensures CanReach(s, FirstRecovered(s, p))
  {
    ReachesOrphaned(s);
    var orphaned := Orphaned(s, p);
    assert orphaned.pendings == {p};
    OrphanOverlooked(orphaned);
    RecoverySucceeds(orphaned);
    Along(s, orphaned, Released(orphaned));
    Then(s, Released(orphaned), Stopping(OperatorDies));
    assert Do(Released(orphaned), Stopping(OperatorDies)) == FirstRecovered(s, p);
  }

  /** An attempt that never committed, and whose preimage is gone, reads as exceptional. */
  lemma MistakenForCommitted(s: State, id: LaunchId, p: Pending)
    requires s.lock == Some(id) && ReadinessOf(s, p) == {} && !Listening(s)
    requires PendingsOf(s, id) == {p} && p.dbBefore != s.db
    ensures VerdictOf(s).Exceptional?
  {
    TheSole(PendingsOf(s, id), p);
  }

  function OrphanEnd(s: State, pid: Pid, p: Pending): State {
    s.(operator := Idle, db := s.nextDb, nextDb := s.nextDb + 1, commits := s.commits[p.id := s.nextDb],
       children := map[])
  }

  /** The operator dies, the orphan commits custody and dies too. */
  lemma OrphanCommits(s: State, pid: Pid, p: Pending)
    requires s.children == map[pid := Child(p, Booting)]
    ensures CanReach(s, OrphanEnd(s, pid, p))
  {
    Step(s, Stopping(OperatorDies));
    var idle := Do(s, Stopping(OperatorDies));
    Then(s, idle, ByChild(pid, Commits));
    var committed := Do(idle, ByChild(pid, Commits));
    Then(s, committed, ByChild(pid, Dies));
    assert Do(committed, ByChild(pid, Dies)).children == map[];
  }

  /** Quiet runs are needed: recovery looks for the earlier child only through its readiness receipt,
      so it overlooks one that still boots.  From every initial state there is a run in which that
      child commits later, and the classification of the next attempt is then wrong. */
  lemma OrphanDefeatsClassification(s: State)
    requires Initial(s)
    ensures exists t :: (
      && CanReach(s, t) && Leftover(t) && Attempted(t, t.lock.value)
      && t.lock.value !in t.commits && VerdictOf(t).Exceptional?)
  {
    var p, pid := Pending(s.nextId, s.db), s.nextPid;
    var recovered := FirstRecovered(s, p);
    ReachesFirstRecovered(s, p);
    assert Dead(recovered) == {} && LiveGenerations(recovered) == {} && DeadUnsealed(recovered) == {};
    ReachesPrepared(recovered);
    Along(s, recovered, Prepared(recovered));
    var t := OrphanEnd(Prepared(recovered), pid, p);
    OrphanCommits(Prepared(recovered), pid, p);
    Along(s, Prepared(recovered), t);
    var p2 := Pending(recovered.nextId, s.db);
    assert p2 in t.pendings && PendingsOf(t, p2.id) == {p2};
    assert ReadinessOf(t, p2) == {};
    MistakenForCommitted(t, p2.id, p2);
  }

  // ---------------------------------------------------------------- a child that ends during a scan

  /** The first launch of all, serving. */
  predicate FirstServes(s: State, l: Launch) {
    && s.operator.Idle? && s.lock.None? && s.launches == {l} && ChainLinked(s, l) && l.dbAfter == s.db
    && s.children.Keys == {l.pid} && Serves(s, l.pid) && s.db < s.nextDb
    && (forall p :: p in s.pendings ==> p.id < s.nextId) && (forall i :: i in s.commits ==> i < s.nextId)
    && (forall r :: r in s.readinesses ==> r.pending.of.id < s.nextId)
  }

  lemma FirstPrepared(s: State)
    requires Initial(s)
    ensures ScanPasses(s)
    ensures var p := Pending(s.nextId, s.db);
      Prepared(s) == s.(lock := Some(s.nextId), nextId := s.nextId + 1, pendings := {p},
                        operator := PendingDurable(Scan({}, s.db, {}), p))
  {
    assert Dead(s) == {} && LiveGenerations(s) == {} && DeadUnsealed(s) == {};
  }

  lemma FirstHandshaken(s: State)
    requires s.operator.PendingDurable? && s.operator.pending.id < s.nextId && s.pendings == {s.operator.pending}
    requires s.launches == {} && s.readinesses == {} && s.children == map[] && s.commits == map[]
    ensures exists l :: FirstServes(Handshaken(s), l)
  {
    var t := Handshaken(s);
    var l := t.children[s.nextPid].step.launch;
    assert t.launches == {l};
    assert FirstServes(t, l);
  }

  lemma FirstCanServe(s: State)
    requires Initial(s)
    ensures exists t, l :: CanReach(s, t) && FirstServes(t, l)
  {
    FirstPrepared(s);
    LaunchCanStart(s);
    FirstHandshaken(Prepared(s));
  }

  /** The scan has read the first preimage and found it accounted for; then the server writes and dies. */
  function WrittenDuringScan(s: State): State {
    s.(operator := Scanned(Scan({}, s.db, s.seals), {}), db := s.nextDb, nextDb := s.nextDb + 1, children := map[])
  }

  lemma ScanOfServing(s: State, l: Launch, op: Operator)
    requires FirstServes(s, l)
    ensures var t := s.(operator := op);
      Dead(t) == {} && DeadUnsealed(t) == {} && Classifies(t) && OneAccounts(t)
  {
    var t := s.(operator := op);
    assert Alive(t, l);
    assert Accounting(t) == {l};
  }

  lemma ReachesWrittenDuringScan(s: State, l: Launch)
    requires FirstServes(s, l)
    ensures CanReach(s, WrittenDuringScan(s))
  {
    var scan := Scan({}, s.db, s.seals);
    var a := s.(operator := PreimageRead(s.db));
    Step(s, Recovering(ReadPreimage));
    ScanOfServing(s, l, a.operator);
    var b := s.(operator := DeadRead(scan, {}));
    assert Do(a, Recovering(ReadDead)) == b;
    Then(s, a, Recovering(ReadDead));
    ScanOfServing(s, l, b.operator);
    var c := s.(operator := BytesMatched(scan, {}));
    Then(s, b, Recovering(MatchBytes));
    WrittenAndGone(c, l);
    var d := c.(db := s.nextDb, nextDb := s.nextDb + 1, children := map[]);
    Along(s, c, d);
    assert LiveGenerations(d) == {};
    Then(s, d, Recovering(FindLive));
  }

  lemma WrittenAndGone(s: State, l: Launch)
    requires s.children.Keys == {l.pid} && Serves(s, l.pid)
    ensures CanReach(s, s.(db := s.nextDb, nextDb := s.nextDb + 1, children := map[]))
  {
    Step(s, ByChild(l.pid, Writes));
    var written := Do(s, ByChild(l.pid, Writes));
    Then(s, written, ByChild(l.pid, Dies));
    assert written.children - {l.pid} == map[];
  }

  /** The stale preimage goes into the pending receipt, and the operator dies. */
  function StaleAttempt(s: State): State
    requires s.operator.Scanned?
  {
    var p := Pending(s.nextId, s.operator.scan.preimage);
    s.(operator := Idle, lock := Some(s.nextId), nextId := s.nextId + 1, pendings := s.pendings + {p})
  }

  lemma ReachesStaleAttempt(s: State)
    requires s.operator.Scanned? && s.operator.unsealed == {} && s.lock.None? && s.children == map[]
    ensures CanReach(s, StaleAttempt(s))
  {
    var scan := s.operator.scan;
    var sealed := s.(operator := GenerationsSealed(scan));
    Step(s, Recovering(NothingToSeal));
    var clear := s.(operator := LockClear(scan));
    Then(s, sealed, Recovering(NoLock));
    ReachesPending(clear);
    Along(s, clear, WithPending(clear));
    Then(s, WithPending(clear), Stopping(OperatorDies));
  }

  /** Nor may a child end while a launch scans: the preimage is read before the processes are, so a
      server that writes and dies in between leaves the launch with a stale preimage.  From every initial
      state there is a run, with no child booting at any scan, that ends in a wrong classification. */
  lemma ScanRaceDefeatsClassification(s: State)
    requires Initial(s)
    ensures exists t :: (
      && CanReach(s, t) && Leftover(t) && Attempted(t, t.lock.value)
      && t.lock.value !in t.commits && VerdictOf(t).Exceptional?)
  {
    FirstCanServe(s);
    var served, l :| CanReach(s, served) && FirstServes(served, l);
    ReachesWrittenDuringScan(served, l);
    var written := WrittenDuringScan(served);
    Along(s, served, written);
    ReachesStaleAttempt(written);
    var t := StaleAttempt(written);
    Along(s, written, t);
    var p := Pending(served.nextId, served.db);
    assert p in t.pendings && PendingsOf(t, p.id) == {p};
    assert ReadinessOf(t, p) == {};
    MistakenForCommitted(t, p.id, p);
  }
}
