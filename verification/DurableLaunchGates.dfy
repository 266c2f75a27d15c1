/** What the gates of launch, recovery and stop let through, said of receipts, processes and bytes. */
module DurableLaunchGates {
  import opened Common
  import opened DurableLaunch
  import opened DurableLaunchSafety
  import opened DurableLaunchAttempts
  import opened DurableLaunchRecovery

  lemma AtMostOneExactly<T>(s: set<T>)
    ensures |s| <= 1 <==> forall x, y :: x in s && y in s ==> x == y
  {
    if |s| <= 1 {
      forall x, y | x in s && y in s ensures x == y {
        OneAtMost(s, x, y);
      }
    } else {
      if forall x, y :: x in s && y in s ==> x == y {
        AtMostOne(s);
      }
    }
  }

  lemma ExactlyOne<T>(s: set<T>)
    ensures |s| == 1 <==> exists x :: x in s && forall y :: y in s ==> y == x
    ensures |s| == 1 ==> forall x :: x in s <==> x == Sole(s)
  {
    AtMostOneExactly(s);
    if |s| == 1 {
      var x := Sole(s);
      assert x in s && forall y :: y in s ==> y == x;
    }
  }

  // ---------------------------------------------------------------- recovery

  /** The one pending receipt of the lock's attempt. */
  predicate OnlyPending(s: State, p: Pending)
    requires s.lock.Some?
  {
    p in s.pendings && p.id == s.lock.value && forall q :: q in s.pendings && q.id == s.lock.value ==> q == p
  }

  predicate OnlyReadiness(s: State, p: Pending, r: Readiness) {
    && r in s.readinesses && r.pending.of == p
    && forall q :: q in s.readinesses && q.pending.of == p ==> q == r
  }

  /** Some process serves, or one that a readiness receipt of the attempt names is alive. */
  predicate SomethingLives(s: State, p: Pending) {
    || (exists pid :: pid in s.children && s.children[pid].step.Serving?)
    || (exists r :: r in s.readinesses && r.pending.of == p && r.pid in s.children)
  }

  /** Whatever the receipts and processes are, forged or not: which verdict a leftover lock gets. */
  lemma VerdictExactly(s: State, p: Pending)
    requires s.lock.Some?
    ensures VerdictOf(s).PendingUnresolved? <==> !exists q :: OnlyPending(s, q)
    ensures OnlyPending(s, p) ==> (VerdictOf(s).ChildLive? <==> SomethingLives(s, p))
    ensures OnlyPending(s, p) ==> (VerdictOf(s) == PreimageRetry(p) <==>
      !SomethingLives(s, p) && p.dbBefore == s.db && forall r :: r in s.readinesses ==> r.pending.of != p)
    ensures OnlyPending(s, p) ==> forall r :: (VerdictOf(s) == SealedPostimage(p, r) <==>
      !SomethingLives(s, p) && OnlyReadiness(s, p, r) && r.dbAfter == s.db)
    ensures OnlyPending(s, p) ==> VerdictOf(s) in {ChildLive, PreimageRetry(p), Exceptional(p)} || VerdictOf(s).SealedPostimage?
  {
    var ps := PendingsOf(s, s.lock.value);
    ExactlyOne(ps);
    if |ps| == 1 {
      var q := Sole(ps);
      assert q in ps && forall p' :: p' in s.pendings && p'.id == s.lock.value ==> p' in ps;
      assert OnlyPending(s, q);
      var rs := ReadinessOf(s, q);
      ExactlyOne(rs);
      if OnlyPending(s, p) {
        assert p in ps && q == p;
        assert forall r :: r in rs <==> r in s.readinesses && r.pending.of == p;
        forall r ensures OnlyReadiness(s, p, r) <==> |rs| == 1 && Sole(rs) == r {
          if OnlyReadiness(s, p, r) {
            assert rs == {r};
          }
        }
      }
    } else {
      forall q ensures !OnlyPending(s, q) {
        assert OnlyPending(s, q) ==> ps == {q};
      }
    }
  }

  /** In every state of every run, with any processes around: recovery goes on exactly when nothing serves,
      no process lives that a readiness receipt of the attempt names, and the receipts of the attempt
      describe the bytes there are and carry no seal yet. */
  lemma RecoverableExactlyWhen(s: State, actions: seq<Action>, t: State)
    requires Initial(s) && Reaches(s, actions, t) && t.lock.Some?
    ensures Recoverable(t) <==>
      && (forall pid :: pid in t.children ==> !t.children[pid].step.Serving?)
      && (forall r :: r in t.readinesses && r.id == t.lock.value ==> r.pid !in t.children)
      && (RetryableByReceipts(t) || PostimageByReceipts(t))
  {
    TracedAlways(s, actions, t);
    TracedRecoverable(t);
  }

  lemma TracedRecoverable(t: State)
    requires Linked(t) && Numbered(t) && Dated(t) && ReadinessTrue(t) && t.lock.Some?
    ensures Recoverable(t) <==>
      && (forall pid :: pid in t.children ==> !t.children[pid].step.Serving?)
      && (forall r :: r in t.readinesses && r.id == t.lock.value ==> r.pid !in t.children)
      && (RetryableByReceipts(t) || PostimageByReceipts(t))
  {
    if p :| p in t.pendings && p.id == t.lock.value {
      assert OnlyPending(t, p);
      VerdictExactly(t, p);
      forall r | r in t.readinesses ensures r.id == t.lock.value <==> r.pending.of == p {
        assert r.pending.of in t.pendings;
      }
      if r :| r in t.readinesses && r.id == t.lock.value {
        assert OnlyReadiness(t, p, r);
      }
    } else {
      VerdictExactly(t, Pending(0, 0));
    }
  }

  /** No recovery under a live child: whenever any run comes to seal a lock, nothing serves and no process
      lives that a readiness receipt of the lock's attempt names. */
  lemma NoRecoveryUnderLiveChild(s: State, actions: seq<Action>, t: State)
    requires Initial(s) && Reaches(s, actions, t) && RecoveryEnabled(t, SealLock)
    ensures t.lock.Some?
    ensures forall pid :: pid in t.children ==> !t.children[pid].step.Serving?
    ensures forall r :: r in t.readinesses && r.id == t.lock.value ==> r.pid !in t.children
  {
    RecoverableExactlyWhen(s, actions, t);
  }

  // ---------------------------------------------------------------- the generation scan

  /** Pending and readiness receipts are there and agree with the launch receipt in every linked field. */
  predicate FullyLinked(s: State, l: Launch) {
    exists p, r :: (
      && p in s.pendings && r in s.readinesses && l.pending == PendingSha(p) && l.readiness == ReadinessSha(r)
      && r.pending == PendingSha(p) && p.id == l.id && r.id == l.id && r.pid == l.pid && r.dbAfter == l.dbAfter)
  }

  /** The stop's exit receipt is there and answers its challenge for the same launch. */
  predicate Answered(s: State, stop: Stop) {
    exists e :: (
      && e in s.exits && stop.exit == ExitSha(e) && e.launch == stop.launch && e.challenge == Some(stop.challenge))
  }

  predicate NoStop(s: State, l: Launch) { forall stop :: stop in s.stops ==> stop.launch.of != l }

  predicate NoSeal(s: State, l: Launch) {
    forall seal :: seal in s.seals && seal.ChildAbsent? ==> seal.launch.of != l
  }

  predicate Unrecorded(s: State, l: Launch) { NoStop(s, l) && NoSeal(s, l) }

  /** At most one stop, and that one answered; at most one generation seal. */
  predicate Unambiguous(s: State, l: Launch) {
    && (forall a, b :: a in s.stops && b in s.stops && a.launch.of == l && b.launch.of == l ==> a == b)
    && (forall a :: a in s.stops && a.launch.of == l ==> Answered(s, a))
    && OneSeal(s, l)
  }

  predicate OneSeal(s: State, l: Launch) {
    forall a, b :: a in s.seals && b in s.seals && SealsGeneration(a, l) && SealsGeneration(b, l) ==> a == b
  }

  predicate SealsGeneration(seal: Seal, l: Launch) { seal.ChildAbsent? && seal.launch.of == l }

  /** One launch, and no other, explains the database, unless there is none. */
  predicate OneExplains(s: State) {
    s.launches == {} || exists l :: (l in s.launches && Explains(s, l)
      && forall m :: m in s.launches && Explains(s, m) ==> m == l)
  }

  /** The database is as the launch receipt says, or as its one answered stop with its challenge says. */
  predicate Explains(s: State, l: Launch) {
    || l.dbAfter == s.db
    || (&& (exists stop :: stop in s.stops && stop.launch.of == l)
        && forall stop :: stop in s.stops && stop.launch.of == l ==>
             && (forall other :: other in s.stops && other.launch.of == l ==> other == stop)
             && Answered(s, stop) && stop.challenge.of in s.challenges && stop.dbAfter == s.db)
  }

  lemma LinkedExactly(s: State, l: Launch)
    ensures ChainLinked(s, l) <==> FullyLinked(s, l)
  {
    if ChainLinked(s, l) {
      assert l.pending == PendingSha(l.pending.of) && l.readiness == ReadinessSha(l.readiness.of);
    }
  }

  lemma AnsweredExactly(s: State, stop: Stop)
    ensures StopProven(s, stop) <==> Answered(s, stop)
  {
    if StopProven(s, stop) {
      assert stop.exit == ExitSha(stop.exit.of);
    }
  }

  lemma SealsExactly(s: State, l: Launch)
    ensures |SealsOf(s, l)| <= 1 <==> OneSeal(s, l)
    ensures SealsOf(s, l) == {} <==> NoSeal(s, l)
  {
    AtMostOneExactly(SealsOf(s, l));
    forall seal ensures seal in SealsOf(s, l) <==> seal in s.seals && SealsGeneration(seal, l) {
    }
  }

  lemma UnambiguousExactly(s: State, l: Launch)
    ensures Classifiable(s, l) <==> Unambiguous(s, l)
    ensures Unambiguous(s, l) ==> (!Terminal(s, l) <==> Unrecorded(s, l))
  {
    AtMostOneExactly(StopsOf(s, l));
    SealsExactly(s, l);
    forall stop | stop in s.stops ensures StopProven(s, stop) <==> Answered(s, stop) {
      AnsweredExactly(s, stop);
    }
    if stop :| stop in s.stops && stop.launch.of == l {
      assert stop in StopsOf(s, l);
    } else {
      assert StopsOf(s, l) == {};
    }
  }

  lemma ExplainsExactly(s: State, l: Launch)
    ensures AccountsFor(s, l) <==> Explains(s, l)
  {
    var own := StopsOf(s, l);
    ExactlyOne(own);
    assert forall stop :: stop in own <==> stop in s.stops && stop.launch.of == l;
    forall stop | stop in s.stops ensures StopProven(s, stop) <==> Answered(s, stop) {
      AnsweredExactly(s, stop);
    }
    if Explains(s, l) && l.dbAfter != s.db {
      var stop :| stop in s.stops && stop.launch.of == l;
      assert own == {stop};
    }
  }

  lemma OneExplainsExactly(s: State)
    ensures OneAccounts(s) <==> OneExplains(s)
  {
    forall l | l in s.launches ensures AccountsFor(s, l) <==> Explains(s, l) {
      ExplainsExactly(s, l);
    }
    assert forall l :: l in Accounting(s) <==> l in s.launches && Explains(s, l);
    ExactlyOne(Accounting(s));
  }

  predicate DeadUnrecorded(s: State, l: Launch) { l.pid !in s.children && Unrecorded(s, l) }

  predicate OneUnrecorded(s: State) {
    forall l, m :: l in s.launches && m in s.launches && DeadUnrecorded(s, l) && DeadUnrecorded(s, m) ==> l == m
  }

  predicate OneLive(s: State) {
    forall l, m :: l in s.launches && m in s.launches && l.pid in s.children && m.pid in s.children ==> l == m
  }

  lemma ClassifiesExactly(s: State)
    ensures Classifies(s) <==>
      && (forall l :: l in s.launches ==> FullyLinked(s, l))
      && (forall l :: l in s.launches && l.pid !in s.children ==> Unambiguous(s, l))
  {
    forall l | l in s.launches
      ensures ChainLinked(s, l) <==> FullyLinked(s, l)
      ensures Classifiable(s, l) <==> Unambiguous(s, l)
    {
      LinkedExactly(s, l);
      UnambiguousExactly(s, l);
    }
  }

  /** The dead generations without a record are the ones a launch seals. */
  lemma UnsealedExactly(s: State, l: Launch)
    requires Classifies(s)
    ensures l in DeadUnsealed(s) <==> l in s.launches && l.pid !in s.children && Unrecorded(s, l)
  {
    UnambiguousExactly(s, l);
  }

  lemma OneUnrecordedExactly(s: State)
    requires Classifies(s)
    ensures |DeadUnsealed(s)| <= 1 <==> OneUnrecorded(s)
  {
    AtMostOneExactly(DeadUnsealed(s));
    forall l ensures l in DeadUnsealed(s) <==> l in s.launches && l.pid !in s.children && Unrecorded(s, l) {
      UnsealedExactly(s, l);
    }
  }

  /** Whatever the directory holds, forged or not: the generation scan passes exactly when every launch is
      fully linked, the records of every dead one are unambiguous, one and only one explains the
      database, at most one dead one has no record, and at most one is alive. */
  lemma ScanPassesExactlyWhen(s: State)
    ensures ScanPasses(s) <==>
      && (forall l :: l in s.launches ==> FullyLinked(s, l))
      && (forall l :: l in s.launches && l.pid !in s.children ==> Unambiguous(s, l))
      && OneExplains(s) && OneUnrecorded(s) && OneLive(s)
  {
    ClassifiesExactly(s);
    OneExplainsExactly(s);
    if Classifies(s) {
      OneUnrecordedExactly(s);
    }
    AtMostOneExactly(LiveGenerations(s));
    assert forall l :: l in LiveGenerations(s) <==> l in s.launches && l.pid in s.children;
  }
}
