/** Crash recovery of durable launch: what a leftover lock means, and when it can be released. */
module DurableLaunchRecovery {
  import opened Common
  import opened DurableLaunch
  import opened DurableLaunchSafety
  import opened DurableLaunchAttempts
  import opened DurableLaunchQuiet
  import opened DurableLaunchRuns

  // ---------------------------------------------------------------- quiet runs

  /** In quiet runs nobody disturbs an attempt, so the whole classification is true: unresolved without
      a pending receipt; with one, a preimage retry exactly when custody was never committed, a
      sealed postimage exactly when readiness is durable and the database still holds the
      committed bytes, exceptional otherwise.  Before release the bytes are always still there. */
  lemma RecoveryClassifies(s: State, actions: seq<Action>, t: State)
    requires Initial(s) && QuietReaches(s, actions, t) && Leftover(t)
    ensures var id := t.lock.value; var v := VerdictOf(t);
      && UnresolvedIsTrue(t, v, id) && RetryIsTrue(t, v, id) && SealedIsTrue(t, v, id) && ExceptionalIsTrue(t, v, id)
      && (id in t.commits && id !in t.served ==> HoldsCommit(t, id))
  {
    QuietAlways(s, actions, t);
    Classified(t);
  }

  // ---------------------------------------------------------------- when the lock can be released

  /** The recovery that a launch makes of a leftover lock. */
  ghost function Released(s: State): State
    requires s.lock.Some? && Recoverable(s)
  {
    Sealed(s).(seals := Sealed(s).seals + {RecoverySeal(VerdictOf(s), s.db)},
               lock := None, operator := LockClear(ScanOf(s)))
  }

  lemma VerdictFrame(s: State, t: State)
    requires t.pendings == s.pendings && t.readinesses == s.readinesses && t.db == s.db
    requires t.children == s.children && t.lock == s.lock && s.lock.Some?
    ensures VerdictOf(t) == VerdictOf(s)
  {
    var id := s.lock.value;
    assert PendingsOf(t, id) == PendingsOf(s, id);
    if |PendingsOf(s, id)| == 1 {
      assert ReadinessOf(t, Sole(PendingsOf(s, id))) == ReadinessOf(s, Sole(PendingsOf(s, id)));
    }
  }

  /** One launch recovers the lock, writing its seals and changing nothing else. */
  lemma RecoverySucceeds(s: State)
    requires NothingRuns(s) && ScanPasses(s) && Recoverable(s)
    ensures CanReach(s, Released(s))
  {
    ReachesSealed(s);
    VerdictFrame(s, Sealed(s));
    var locked := Sealed(s).(seals := Sealed(s).seals + {RecoverySeal(VerdictOf(s), s.db)}, operator := LockSealed(ScanOf(s)));
    assert Enabled(Sealed(s), Recovering(SealLock)) && Do(Sealed(s), Recovering(SealLock)) == locked;
    Then(s, Sealed(s), Recovering(SealLock));
    assert Do(locked, Recovering(Unlock)) == Released(s);
    Then(s, locked, Recovering(Unlock));
  }

  /** Nothing runs and the scan cannot pass, with a launch at most as far as the gate that stops it. */
  predicate Blocked(s: State) {
    && s.children == map[] && !ScanPasses(s)
    && match s.operator
       case Idle => true
       case PreimageRead(_) => true
       case DeadRead(_, unsealed) => Classifies(s) && unsealed == DeadUnsealed(s)
       case _ => false
  }

  /** Nothing runs and the lock is not recoverable, with a launch at most as far as its sealed scan. */
  ghost predicate Unrecoverable(s: State) {
    && s.children == map[] && s.lock.Some? && !Recoverable(s)
    && (s.operator.Idle? || Scanning(s.operator) || s.operator.Scanned? || s.operator.GenerationsSealed?)
  }

  /** Where nothing runs and no lock is held by the operator, only its own scan and its death are steps. */
  lemma OnlyRecovers(s: State, a: Action)
    requires s.children == map[] && Enabled(s, a)
    requires s.operator.Idle? || Scanning(s.operator) || s.operator.Scanned? || s.operator.GenerationsSealed?
    ensures a.Recovering? || a == Stopping(OperatorDies)
  {
  }

  lemma BlockedByRecovery(s: State, a: RecoveryAction)
    requires Blocked(s) && RecoveryEnabled(s, a)
    ensures Blocked(Recover(s, a)) && Recover(s, a) == s.(operator := Recover(s, a).operator)
  {
    assert LiveGenerations(s) == {};
    assert a.ReadPreimage? || a.ReadDead?;
    SameScan(s, Recover(s, a));
  }

  lemma BlockedStep(s: State, a: Action)
    requires Blocked(s) && Enabled(s, a)
    ensures Blocked(Do(s, a)) && Do(s, a) == s.(operator := Do(s, a).operator)
  {
    OnlyRecovers(s, a);
    if a.Recovering? {
      BlockedByRecovery(s, a.r);
    } else {
      SameScan(s, Do(s, a));
    }
  }

  lemma {:induction false} BlockedForEver(s: State, actions: seq<Action>, t: State)
    requires Blocked(s) && Reaches(s, actions, t)
    ensures Blocked(t) && t == s.(operator := t.operator)
    decreases |actions|
  {
    if actions != [] {
      BlockedStep(s, actions[0]);
      BlockedForEver(Do(s, actions[0]), actions[1..], t);
    }
  }

  lemma UnrecoverableByRecovery(s: State, a: RecoveryAction)
    requires Unrecoverable(s) && RecoveryEnabled(s, a)
    ensures Unrecoverable(Recover(s, a)) && Recover(s, a).lock == s.lock
  {
    RecoveryFrame(s, a);
    assert LiveGenerations(s) == {};
    VerdictFrame(s, Recover(s, a));
  }

  lemma UnrecoverableStep(s: State, a: Action)
    requires Unrecoverable(s) && Enabled(s, a)
    ensures Unrecoverable(Do(s, a)) && Do(s, a).lock == s.lock
  {
    OnlyRecovers(s, a);
    if a.Recovering? {
      UnrecoverableByRecovery(s, a.r);
    } else {
      VerdictFrame(s, Do(s, a));
    }
  }

  lemma {:induction false} UnrecoverableForEver(s: State, actions: seq<Action>, t: State)
    requires Unrecoverable(s) && Reaches(s, actions, t)
    ensures Unrecoverable(t) && t.lock == s.lock
    decreases |actions|
  {
    if actions != [] {
      UnrecoverableStep(s, actions[0]);
      UnrecoverableForEver(Do(s, actions[0]), actions[1..], t);
    }
  }

  /** Some run, of any length and with any crashes, gets rid of the lock. */
  ghost predicate CanRelease(s: State) {
    exists t :: CanReach(s, t) && t.lock.None?
  }

  /** Some run, of any length and with any crashes, gets a launch to create its child. */
  ghost predicate CanFork(s: State) {
    exists t :: CanReach(s, t) && HandshakeEnabled(t, Fork)
  }

  lemma NothingHappens(s: State, actions: seq<Action>, t: State)
    requires Leftover(s) && !(ScanPasses(s) && Recoverable(s)) && Reaches(s, actions, t)
    ensures t.lock == s.lock && !HandshakeEnabled(t, Fork)
  {
    if ScanPasses(s) {
      UnrecoverableForEver(s, actions, t);
    } else {
      BlockedForEver(s, actions, t);
    }
  }

  lemma RecoveryLeadsToFork(s: State)
    requires NothingRuns(s) && ScanPasses(s) && Recoverable(s)
    ensures CanFork(s)
  {
    RecoverySucceeds(s);
    var clear := Released(s);
    ReachesPending(clear);
    Along(s, clear, WithPending(clear));
    assert HandshakeEnabled(WithPending(clear), Fork);
  }

  /** From any state at all a leftover lock can be released, and the crashed launch followed by a new child,
      exactly when the scan passes and the verdict is recoverable. */
  lemma ReleasedByRecoveryAlone(s: State)
    requires Leftover(s)
    ensures CanRelease(s) <==> ScanPasses(s) && Recoverable(s)
    ensures CanFork(s) <==> ScanPasses(s) && Recoverable(s)
  {
    if ScanPasses(s) && Recoverable(s) {
      assert LiveGenerations(s) == {};
      RecoverySucceeds(s);
      RecoveryLeadsToFork(s);
    } else {
      forall t | CanReach(s, t) ensures t.lock == s.lock && !HandshakeEnabled(t, Fork) {
        var actions :| Reaches(s, actions, t);
        NothingHappens(s, actions, t);
      }
    }
  }

  lemma AtMostOne<T>(s: set<T>)
    requires forall x, y :: x in s && y in s ==> x == y
    ensures |s| <= 1
  {
    if x :| x in s {
      assert s == {x};
    }
  }

  /** Receipts about a dead generation are never ambiguous, and being unsealed is having none. */
  lemma DeadAreClassifiable(s: State, l: Launch)
    requires Linked(s) && Terminals(s)
    ensures Classifiable(s, l) && (l in DeadUnsealed(s) <==> l in Dead(s) && !Recorded(s, l))
  {
    AtMostOne(StopsOf(s, l));
    AtMostOne(SealsOf(s, l));
    if stop :| stop in s.stops && stop.launch.of == l {
      assert StopsOf(s, l) == {stop};
    } else if seal :| seal in s.seals && seal.ChildAbsent? && seal.launch.of == l {
      assert SealsOf(s, l) == {seal};
    } else {
      assert StopsOf(s, l) == {} && SealsOf(s, l) == {};
    }
  }

  lemma ScanReducesToAccounting(s: State)
    requires Linked(s) && Terminals(s) && OneLaunchEach(s) && PastRecorded(s) && s.children == map[]
    ensures ScanPasses(s) <==> OneAccounts(s)
  {
    forall l | l in s.launches ensures Classifiable(s, l) && (l in DeadUnsealed(s) <==> l in Dead(s) && !Recorded(s, l)) {
      DeadAreClassifiable(s, l);
    }
    assert DeadUnsealed(s) <= s.launches;
    forall l, m | l in DeadUnsealed(s) && m in DeadUnsealed(s) ensures l == m {
      assert Latest(s, l.id) && Latest(s, m.id);
    }
    AtMostOne(DeadUnsealed(s));
    assert LiveGenerations(s) == {};
  }

  predicate OwnLaunch(s: State, id: LaunchId) { exists l :: l in s.launches && l.id == id }

  /** Once the latest attempt's custody commit is what the database holds, only that attempt's own
      launch receipt can account for it. */
  lemma CommittedAccounting(s: State, l: Launch)
    requires Traced(s) && Ids(s) && Ordered(s) && s.lock.Some? && HoldsCommit(s, s.lock.value) && l in s.launches
    ensures l.id == s.lock.value <==> AccountsFor(s, l)
  {
    assert ChainLinked(s, l);
    assert l.readiness.of in s.readinesses && l.dbAfter == s.commits[l.id];
    assert l.pending.of in s.pendings && l.id < s.nextId;
    if l.id != s.lock.value && StoppedFor(s, l) {
      var stop :| stop in StopsOf(s, l);
      assert stop.dbAfter < s.commits[s.lock.value];
    }
  }

  /** The generation scan lets a recovery of committed custody through only if the attempt got as
      far as its launch receipt, or there was never a generation before it. */
  predicate GateOpens(s: State, id: LaunchId) {
    id !in s.commits || s.launches == {} || OwnLaunch(s, id)
  }

  lemma GateExactlyWhen(s: State)
    requires Traced(s) && Ids(s) && OneLaunchEach(s) && Ordered(s) && Bytes(s) && s.lock.Some?
    requires s.lock.value in s.commits ==> HoldsCommit(s, s.lock.value)
    ensures OneAccounts(s) <==> GateOpens(s, s.lock.value)
  {
    var id := s.lock.value;
    if id in s.commits {
      forall l | l in s.launches ensures l.id == id <==> AccountsFor(s, l) {
        CommittedAccounting(s, l);
      }
      if l :| l in s.launches && l.id == id {
        assert Accounting(s) == {l};
      } else {
        assert Accounting(s) == {};
      }
    }
  }

  /** The lock's attempt left a pending receipt of the bytes there are, no readiness receipt, and has
      not been sealed for a retry before. */
  predicate RetryableByReceipts(s: State)
    requires s.lock.Some?
  {
    exists p :: (
      && p in s.pendings && p.id == s.lock.value && p.dbBefore == s.db
      && !ReadyDurable(s, p.id) && PreimageRetryable(PendingSha(p), s.db) !in s.seals)
  }

  /** The lock's attempt left a readiness receipt of the bytes there are, and has not been sealed as a
      postimage before. */
  predicate PostimageByReceipts(s: State)
    requires s.lock.Some?
  {
    exists r :: (
      && r in s.readinesses && r.id == s.lock.value && r.dbAfter == s.db
      && PostimageChildAbsent(r.pending, ReadinessSha(r), s.db) !in s.seals)
  }

  lemma RecoverableByReceipts(s: State)
    requires Traced(s) && Leftover(s)
    ensures Recoverable(s) <==> RetryableByReceipts(s) || PostimageByReceipts(s)
  {
    Classified(s);
    var id := s.lock.value;
    if p :| p in s.pendings && p.id == id {
      assert PendingsOf(s, id) == {p};
      TheSole(PendingsOf(s, id), p);
      if r :| r in s.readinesses && r.id == id {
        assert r.pending.of in s.pendings && r.pending.of == p;
        assert ReadinessOf(s, p) == {r};
        TheSole(ReadinessOf(s, p), r);
      } else {
        assert ReadinessOf(s, p) == {};
      }
    }
  }

  /** Crash recovery, exact extent over all runs: a lock that a dead attempt left behind can ever be
      released, by any later run at all, exactly when the generation scan passes and the receipts
      of the attempt describe the bytes there are and carry no seal yet. */
  lemma ReleasableExactlyWhen(s: State, actions: seq<Action>, t: State)
    requires Initial(s) && Reaches(s, actions, t) && Leftover(t)
    ensures CanRelease(t) <==> ScanPasses(t) && (RetryableByReceipts(t) || PostimageByReceipts(t))
  {
    TracedAlways(s, actions, t);
    RecoverableByReceipts(t);
    ReleasedByRecoveryAlone(t);
  }

  /** In quiet runs the scan refuses none but an attempt that committed, has no launch receipt of its own
      and follows an earlier generation. */
  lemma QuietlyReleasableExactlyWhen(s: State, actions: seq<Action>, t: State)
    requires Initial(s) && QuietReaches(s, actions, t) && Leftover(t)
    ensures CanRelease(t) <==>
      RetryableByReceipts(t) || (PostimageByReceipts(t) && (t.launches == {} || OwnLaunch(t, t.lock.value)))
  {
    QuietAlways(s, actions, t);
    RecoverableByReceipts(t);
    ReleasedByRecoveryAlone(t);
    ScanReducesToAccounting(t);
    if RetryableByReceipts(t) || PostimageByReceipts(t) {
      GateExactlyWhen(t);
    }
  }

  /** A recovery that dies between its seal and the removal of the lock can never be repeated: its
      seal is already there, and receipts are never replaced. */
  lemma HalfRecoveryIsStuck(s: State, actions: seq<Action>, t: State)
    requires RecoveryEnabled(s, SealLock) && s.children == map[]
    requires Reaches(StopStep(Recover(s, SealLock), OperatorDies), actions, t)
    ensures t.lock == s.lock
  {
    var sealed := Recover(s, SealLock);
    var crashed := StopStep(sealed, OperatorDies);
    VerdictFrame(s, crashed);
    UnrecoverableForEver(crashed, actions, t);
  }
}
