/** Step by step: when each step of launch, recovery, stop and child can be taken and what it changes, said
    of the fields of the state. */
module DurableLaunchSteps {
  import opened Common
  import opened DurableLaunch
  import opened DurableLaunchGates

  predicate NothingServes(s: State) {
    forall pid :: pid in s.children ==> !s.children[pid].step.Serving?
  }

  // ---------------------------------------------------------------- scan and recovery

  lemma ReadGuards(s: State)
    ensures RecoveryEnabled(s, ReadPreimage) <==> s.operator == Idle
    ensures RecoveryEnabled(s, ReadDead) <==>
      && s.operator.PreimageRead? && (forall l :: l in s.launches ==> FullyLinked(s, l))
      && forall l :: l in s.launches && l.pid !in s.children ==> Unambiguous(s, l)
  {
    ClassifiesExactly(s);
  }

  lemma MatchGuards(s: State)
    ensures RecoveryEnabled(s, MatchBytes) <==>
      s.operator.DeadRead? && OneExplains(s) && forall l, m :: l in s.operator.unsealed && m in s.operator.unsealed ==> l == m
  {
    if s.operator.DeadRead? {
      OneExplainsExactly(s);
      AtMostOneExactly(s.operator.unsealed);
    }
  }

  lemma LiveGuards(s: State)
    ensures RecoveryEnabled(s, FindLive) <==> s.operator.BytesMatched? && OneLive(s)
    ensures RecoveryEnabled(s, WaitedOut) <==> s.operator.Waiting? && s.operator.live.pid !in s.children
  {
    AtMostOneExactly(LiveGenerations(s));
    assert forall l :: l in LiveGenerations(s) <==> l in s.launches && l.pid in s.children;
  }

  lemma SealGuards(s: State)
    ensures RecoveryEnabled(s, SealDead) <==> s.operator.Scanned? && s.operator.unsealed != {} && NothingServes(s)
    ensures RecoveryEnabled(s, NothingToSeal) <==> s.operator.Scanned? && s.operator.unsealed == {} && NothingServes(s)
    ensures RecoveryEnabled(s, SealLock) <==> s.operator.GenerationsSealed? && s.lock.Some? && Recoverable(s)
    ensures RecoveryEnabled(s, Unlock) <==> s.operator.LockSealed?
    ensures RecoveryEnabled(s, NoLock) <==> s.operator.GenerationsSealed? && s.lock == None
  {
  }

  /** The last look at the processes ends the launch when the one living generation serves, waits for it when
      it does not, and goes on when none lives. */
  lemma LastLookTells(s: State, l: Launch)
    requires RecoveryEnabled(s, FindLive)
    ensures var t := Recover(s, FindLive);
      && (l in s.launches && l.pid in s.children ==>
            t == s.(operator := if s.children[l.pid].step.Serving? then Idle else Waiting(s.operator.scan, s.operator.unsealed, l)))
      && ((forall m :: m in s.launches ==> m.pid !in s.children) ==>
            t == s.(operator := Scanned(s.operator.scan, s.operator.unsealed)))
  {
    if l in s.launches && l.pid in s.children {
      assert l in LiveGenerations(s);
      TheSole(LiveGenerations(s), l);
    } else if forall m :: m in s.launches ==> m.pid !in s.children {
      assert LiveGenerations(s) == {};
    }
  }

  /** Every other step of scan and recovery. */
  lemma RecoveryTells(s: State, a: RecoveryAction)
    requires RecoveryEnabled(s, a)
    ensures var t, op := Recover(s, a), s.operator;
      && (a == ReadPreimage ==> t == s.(operator := PreimageRead(s.db)))
      && (a == ReadDead ==> t == s.(operator := t.operator) && t.operator.DeadRead?)
      && (a == MatchBytes ==> t == s.(operator := BytesMatched(op.scan, op.unsealed)))
      && (a == WaitedOut ==> t == s.(operator := Scanned(op.scan, op.unsealed)))
      && (a == SealDead ==>
            && t == s.(seals := t.seals, operator := GenerationsSealed(op.scan))
            && forall seal :: (seal in t.seals <==>
                 seal in s.seals || (seal.ChildAbsent? && seal.launch.of in op.unsealed && seal.dbNow == s.db)))
      && (a == NothingToSeal ==> t == s.(operator := GenerationsSealed(op.scan)))
      && (a == SealLock ==> t == s.(seals := t.seals, operator := LockSealed(op.scan)))
      && (a == Unlock ==> t == s.(lock := None, operator := LockClear(op.scan)))
      && (a == NoLock ==> t == s.(operator := LockClear(op.scan)))
  {
    if a == SealDead {
      forall seal ensures seal in Recover(s, a).seals <==>
        seal in s.seals || (seal.ChildAbsent? && seal.launch.of in s.operator.unsealed && seal.dbNow == s.db)
      {
        assert seal.ChildAbsent? ==> seal == ChildAbsent(LaunchSha(seal.launch.of), seal.dbNow);
      }
    }
  }

  /** Which seal a recovery writes: of the preimage of the lock's pending receipt, or of the postimage of its
      readiness receipt. */
  lemma SealLockTells(s: State, p: Pending)
    requires RecoveryEnabled(s, SealLock) && OnlyPending(s, p)
    ensures var t := Recover(s, SealLock);
      || (&& p.dbBefore == s.db && (forall r :: r in s.readinesses ==> r.pending.of != p)
          && t.seals == s.seals + {PreimageRetryable(PendingSha(p), s.db)})
      || exists r :: (OnlyReadiness(s, p, r) && r.dbAfter == s.db
           && t.seals == s.seals + {PostimageChildAbsent(PendingSha(p), ReadinessSha(r), s.db)})
  {
    VerdictExactly(s, p);
    var v := VerdictOf(s);
    if v.SealedPostimage? {
      assert v == SealedPostimage(p, v.readiness) by {
        var ps := PendingsOf(s, s.lock.value);
        assert ps == {p};
        TheSole(ps, p);
      }
      assert OnlyReadiness(s, p, v.readiness);
    }
  }

  // ---------------------------------------------------------------- handshake

  lemma HandshakeGuards(s: State, r: Readiness)
    ensures HandshakeEnabled(s, TakeLock) <==> s.operator.LockClear? && s.lock == None && NothingServes(s)
    ensures HandshakeEnabled(s, WritePending) <==> s.operator.Locked?
    ensures HandshakeEnabled(s, Fork) <==> s.operator.PendingDurable?
    ensures HandshakeEnabled(s, ReadReadiness(r)) <==>
      && s.operator.Forked? && r in s.readinesses && NothingServes(s)
      && r == Readiness(s.operator.pending.id, s.operator.pid, PendingSha(s.operator.pending), s.operator.scan.preimage, r.dbAfter)
    ensures HandshakeEnabled(s, WriteLaunch) <==> s.operator.ReadinessRead?
    ensures HandshakeEnabled(s, SendRelease) <==> s.operator.LaunchDurable?
    ensures HandshakeEnabled(s, Finish) <==>
      && s.operator.ReleaseSent? && s.operator.launch.pid in s.children
      && s.children[s.operator.launch.pid].step.Serving?
  {
    assert s.operator.Forked? && r.pending.of == s.operator.pending ==> r.pending == PendingSha(s.operator.pending);
  }

  lemma HandshakeTells(s: State, a: HandshakeAction)
    requires HandshakeEnabled(s, a)
    ensures var t, op := Handshake(s, a), s.operator;
      && (a == TakeLock ==> t == s.(lock := Some(s.nextId), nextId := s.nextId + 1, operator := Locked(op.scan, s.nextId)))
      && (a == WritePending ==>
            var p := Pending(op.id, op.scan.preimage);
            t == s.(pendings := s.pendings + {p}, operator := PendingDurable(op.scan, p)))
      && (a == Fork ==> t == s.(children := s.children[s.nextPid := Child(op.pending, Booting)], nextPid := s.nextPid + 1,
                                operator := Forked(op.scan, op.pending, s.nextPid)))
      && (a.ReadReadiness? ==> t == s.(operator := ReadinessRead(op.scan, op.pending, op.pid, a.message)))
      && (a == WriteLaunch ==>
            var l := Launch(op.pending.id, op.pid, PendingSha(op.pending), ReadinessSha(op.readiness),
                            op.readiness.dbBefore, op.readiness.dbAfter);
            t == s.(launches := s.launches + {l}, operator := LaunchDurable(op.scan, l)))
      && (a == SendRelease ==> t == s.(released := s.released + {op.launch}, operator := ReleaseSent(op.scan, op.launch)))
      && (a == Finish ==> t == s.(lock := None, operator := Idle))
  {
  }

  // ---------------------------------------------------------------- stop

  lemma StopGuards(s: State, l: Launch)
    ensures StopEnabled(s, SelectForStop(l)) <==>
      && s.operator == Idle && l in s.launches && FullyLinked(s, l)
      && l.pid in s.children && s.children[l.pid].step.Serving?
      && (forall c :: c in s.challenges ==> c.launch != LaunchSha(l))
      && (forall e :: e in s.exits ==> e.launch != LaunchSha(l))
      && forall stop :: stop in s.stops ==> stop.launch != LaunchSha(l)
    ensures StopEnabled(s, SendTerm) <==>
      s.operator.StopSelected? && s.operator.launch.pid in s.children && s.children[s.operator.launch.pid].step.Serving?
    ensures StopEnabled(s, OperatorDies)
  {
    LinkedExactly(s, l);
    forall sha: LaunchSha ensures sha == LaunchSha(l) <==> sha.of == l {
    }
  }

  lemma StopTells(s: State, a: StopAction)
    requires StopEnabled(s, a)
    ensures var t, op := StopStep(s, a), s.operator;
      && (a.SelectForStop? ==> t == s.(operator := StopSelected(a.target)))
      && (a == SendTerm ==>
            var c := Challenge(LaunchSha(op.launch), s.nextNonce);
            t == s.(challenges := s.challenges + {c}, nextNonce := s.nextNonce + 1, operator := TermSent(op.launch, c, s.exits)))
      && (a.WriteStop? ==>
            var stop := Stop(LaunchSha(op.launch), ChallengeSha(op.challenge), ExitSha(a.seen), s.db);
            t == s.(stops := s.stops + {stop}, operator := Idle))
      && (a == OperatorDies ==> t == s.(operator := Idle))
  {
  }

  // ---------------------------------------------------------------- child

  lemma ChildGuards(s: State, pid: Pid, l: Launch)
    requires pid in s.children
    ensures var c := s.children[pid];
      && (ChildEnabled(s, pid, Commits) <==> c.step == Booting)
      && (ChildEnabled(s, pid, Readies) <==> c.step.Committed?)
      && (ChildEnabled(s, pid, Accepts(l)) <==>
            && l in s.launches && l in s.released && l.id == c.pending.id && l.pid == pid
            && c.step == Ready(l.readiness.of))
      && (ChildEnabled(s, pid, Writes) <==> c.step.Serving?)
      && (ChildEnabled(s, pid, Exits) <==> c.step.Serving?)
      && ChildEnabled(s, pid, Dies)
  {
  }

  lemma ChildTells(s: State, pid: Pid, a: ChildAction)
    requires ChildEnabled(s, pid, a)
    ensures var t, c := ChildActs(s, pid, a), s.children[pid]; var p := c.pending;
      && (a == Commits ==>
            t == s.(db := s.nextDb, nextDb := s.nextDb + 1, commits := s.commits[p.id := s.nextDb],
                    children := s.children[pid := Child(p, Committed(s.db, s.nextDb))]))
      && (a == Readies ==>
            var r := Readiness(p.id, pid, PendingSha(p), c.step.before, c.step.after);
            t == s.(readinesses := s.readinesses + {r}, children := s.children[pid := Child(p, Ready(r))]))
      && (a.Accepts? ==>
            t == s.(served := s.served + {a.release.id},
                    children := s.children[pid := Child(p, Serving(a.release, c.step.readiness))]))
      && (a == Writes ==> t == s.(db := s.nextDb, nextDb := s.nextDb + 1))
      && (a == Dies ==> t == s.(children := s.children - {pid}))
      && (a == Exits ==> t == s.(exits := t.exits, children := s.children - {pid}))
  {
  }

  /** Exactly this exit: of the child's launch and pid, answering the one challenge there is for that launch,
      and none if there is not just one. */
  predicate AnswersChallenge(s: State, l: Launch, e: Exit) {
    && e.launch == LaunchSha(l) && e.pid == l.pid
    && if e.challenge.Some? then OnlyChallenge(s, l, e.challenge.value.of)
       else forall c :: c in s.challenges ==> !OnlyChallenge(s, l, c)
  }

  predicate OnlyChallenge(s: State, l: Launch, c: Challenge) {
    c in s.challenges && c.launch.of == l && forall d :: d in s.challenges && d.launch.of == l ==> d == c
  }

  lemma SoleChallengeTells(s: State, l: Launch)
    ensures match SoleChallenge(s, l)
      case Some(sha) => OnlyChallenge(s, l, sha.of)
      case None => forall c :: c in s.challenges ==> !OnlyChallenge(s, l, c)
  {
    var cs := ChallengesOf(s, l);
    ExactlyOne(cs);
    assert forall c :: c in cs <==> c in s.challenges && c.launch.of == l;
    forall c | c in s.challenges && OnlyChallenge(s, l, c) ensures |cs| == 1 {
      assert cs == {c};
    }
  }

  lemma ExitTells(s: State, pid: Pid)
    requires ChildEnabled(s, pid, Exits) && s.children[pid].step.launch.pid == pid
    ensures exists e :: (
      AnswersChallenge(s, s.children[pid].step.launch, e) && ChildActs(s, pid, Exits).exits == s.exits + {e})
  {
    var l := s.children[pid].step.launch;
    SoleChallengeTells(s, l);
    var e := Exit(LaunchSha(l), pid, SoleChallenge(s, l));
    assert AnswersChallenge(s, l, e);
    assert ChildActs(s, pid, Exits).exits == s.exits + {e};
  }
}
