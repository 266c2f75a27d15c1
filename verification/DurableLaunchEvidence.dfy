/** What every run of durable launch leaves as evidence: true seals, launches from their preimage, and a
    reason for every lock that is gone. */
module DurableLaunchEvidence {
  import opened Common
  import opened DurableLaunch
  import opened DurableLaunchSafety
  import opened DurableLaunchAttempts
  import opened DurableLaunchGates

  // ---------------------------------------------------------------- the invariant

  /** A seal tells what was there: the preimage of its pending receipt, or the postimage of a readiness
      receipt of that pending receipt. */
  predicate SealTrue(s: State, seal: Seal) {
    match seal
    case ChildAbsent(l, _) => l.of in s.launches
    case PreimageRetryable(p, n) => p.of in s.pendings && n == p.of.dbBefore
    case PostimageChildAbsent(p, r, n) => r.of in s.readinesses && r.of.pending == p && p.of in s.pendings && n == r.of.dbAfter
  }

  predicate SealsTrue(s: State) {
    forall seal :: seal in s.seals ==> SealTrue(s, seal)
  }

  /** A recovery seal of this attempt. */
  predicate SealsAttempt(seal: Seal, id: LaunchId) {
    !seal.ChildAbsent? && seal.pending.of.id == id
  }

  predicate AttemptSealed(s: State, id: LaunchId) {
    exists seal :: seal in s.seals && SealsAttempt(seal, id)
  }

  predicate LockHeld(s: State) {
    match s.operator
    case LockSealed(_) => s.lock.Some? && AttemptSealed(s, s.lock.value)
    case Locked(_, id) => s.lock == Some(id)
    case PendingDurable(_, p) => s.lock == Some(p.id)
    case Forked(_, p, _) => s.lock == Some(p.id)
    case ReadinessRead(_, p, _, _) => s.lock == Some(p.id)
    case LaunchDurable(_, l) => s.lock == Some(l.id)
    case ReleaseSent(_, l) => s.lock == Some(l.id)
    case _ => true
  }

  /** Custody was committed on the very bytes the launch had hashed before it scanned. */
  predicate FromPreimage(s: State) {
    && (forall l :: l in s.launches ==> l.dbBefore == l.pending.of.dbBefore)
    && match s.operator
       case PendingDurable(scan, p) => p.dbBefore == scan.preimage
       case Forked(scan, p, _) => p.dbBefore == scan.preimage
       case ReadinessRead(scan, p, _, r) => p.dbBefore == scan.preimage == r.dbBefore
       case _ => true
  }

  /** Every stop receipt rests on the exit receipt of the process it stopped. */
  predicate StopsOwnExit(s: State) {
    forall stop :: stop in s.stops ==> stop.exit.of.pid == stop.launch.of.pid
  }

  predicate Evidenced(s: State) {
    SealsTrue(s) && LockHeld(s) && FromPreimage(s) && StopsOwnExit(s)
  }

  // ---------------------------------------------------------------- every step keeps it

  lemma SealLockKeepsEvidence(s: State)
    requires Traced(s) && Evidenced(s) && RecoveryEnabled(s, SealLock)
    ensures Evidenced(Recover(s, SealLock))
  {
    var t := Recover(s, SealLock);
    var seal := RecoverySeal(VerdictOf(s), s.db);
    assert t.seals == s.seals + {seal};
    VerdictExactly(s, seal.pending.of);
    VerdictExactly(s, VerdictOf(s).pending);
    if VerdictOf(s).SealedPostimage? {
      assert OnlyReadiness(s, VerdictOf(s).pending, VerdictOf(s).readiness);
    }
    assert SealTrue(t, seal) && SealsAttempt(seal, s.lock.value);
    forall other | other in s.seals ensures SealTrue(t, other) {
      assert SealTrue(s, other);
    }
  }

  lemma RecoveryKeepsEvidence(s: State, a: RecoveryAction)
    requires Traced(s) && Evidenced(s) && RecoveryEnabled(s, a) && (a.SealDead? ==> OperatorGate(s))
    ensures Evidenced(Recover(s, a))
  {
    if a.SealLock? {
      SealLockKeepsEvidence(s);
    } else {
      RecoveryFrame(s, a);
      var t := Recover(s, a);
      forall seal | seal in t.seals ensures SealTrue(t, seal) {
        assert seal in s.seals ==> SealTrue(s, seal);
      }
    }
  }

  lemma HandshakeKeepsEvidence(s: State, a: HandshakeAction)
    requires Evidenced(s) && HandshakeEnabled(s, a)
    ensures Evidenced(Handshake(s, a))
  {
    var t := Handshake(s, a);
    forall seal | seal in t.seals ensures SealTrue(t, seal) {
      assert SealTrue(s, seal);
    }
  }

  lemma StopKeepsEvidence(s: State, a: StopAction)
    requires Evidenced(s) && StopEnabled(s, a)
    ensures Evidenced(StopStep(s, a))
  {
    var t := StopStep(s, a);
    forall seal | seal in t.seals ensures SealTrue(t, seal) {
      assert SealTrue(s, seal);
    }
  }

  lemma ChildKeepsEvidence(s: State, pid: Pid, a: ChildAction)
    requires Evidenced(s) && ChildEnabled(s, pid, a)
    ensures Evidenced(ChildActs(s, pid, a))
  {
    var t := ChildActs(s, pid, a);
    forall seal | seal in t.seals ensures SealTrue(t, seal) {
      assert SealTrue(s, seal);
    }
    if s.operator.LockSealed? {
      var seal :| seal in s.seals && SealsAttempt(seal, s.lock.value);
      assert seal in t.seals;
    }
  }

  /** Over every run: seals are true, launches start from their preimage, stops rest on the exit of the
      process they stopped, and whoever works under a lock holds his own. */
  lemma {:induction false} EvidencedAlways(s: State, actions: seq<Action>, t: State)
    requires Traced(s) && Gated(s) && Evidenced(s) && Reaches(s, actions, t)
    ensures Evidenced(t)
    decreases |actions|
  {
    if actions != [] {
      match actions[0] {
        case Recovering(r) => RecoveryKeepsTraced(s, r); RecoveryKeepsGated(s, r); RecoveryKeepsEvidence(s, r);
        case Handshaking(h) => HandshakeKeepsTraced(s, h); HandshakeKeepsGated(s, h); HandshakeKeepsEvidence(s, h);
        case Stopping(x) => StopKeepsTraced(s, x); StopKeepsGated(s, x); StopKeepsEvidence(s, x);
        case ByChild(pid, c) =>
          ChildKeepsTraced(s, pid, c); ChildKeepsGated(s, pid, c); ChildKeepsEvidence(s, pid, c);
      }
      EvidencedAlways(Do(s, actions[0]), actions[1..], t);
    }
  }

  // ---------------------------------------------------------------- what it means

  /** The generation of this attempt serves, under its own launch receipt. */
  predicate AttemptServes(s: State, id: LaunchId) {
    exists l :: (
      && l in s.launches && l.id == id && l.pid in s.children && s.children[l.pid].step.Serving?)
  }

  /** In every run a lock goes away only when its attempt serves, or when a true recovery seal of that
      attempt is durable; and no step replaces it by another. */
  lemma LockGoesWithReason(s: State, actions: seq<Action>, t: State, a: Action)
    requires Initial(s) && Reaches(s, actions, t) && Enabled(t, a) && t.lock.Some?
    ensures Do(t, a).lock != t.lock ==>
      && Do(t, a).lock.None?
      && (AttemptServes(t, t.lock.value) || AttemptSealed(t, t.lock.value)) && SealsTrue(t)
  {
    EvidencedAlways(s, actions, t);
    LinkedAlways(s, actions, t);
    LockStep(t, a);
  }

  lemma LockStep(s: State, a: Action)
    requires LockHeld(s) && OperatorLinked(s) && Enabled(s, a) && s.lock.Some?
    ensures Do(s, a).lock != s.lock ==>
      Do(s, a).lock.None? && (AttemptServes(s, s.lock.value) || AttemptSealed(s, s.lock.value))
  {
    match a
    case Recovering(r) => RecoveryFrame(s, r);
    case Handshaking(h) => LockHandshake(s, h);
    case Stopping(x) =>
    case ByChild(pid, c) =>
  }

  lemma LockHandshake(s: State, a: HandshakeAction)
    requires LockHeld(s) && OperatorLinked(s) && HandshakeEnabled(s, a) && s.lock.Some?
    ensures Handshake(s, a).lock != s.lock ==> Handshake(s, a).lock.None? && AttemptServes(s, s.lock.value)
  {
    if a.Finish? {
      assert s.operator.launch in s.launches;
    }
  }

  /** In every run each launch receipt, each stop receipt and each seal says what was so. */
  lemma ReceiptsAreTrue(s: State, actions: seq<Action>, t: State)
    requires Initial(s) && Reaches(s, actions, t)
    ensures forall l :: l in t.launches ==> l.dbBefore == l.pending.of.dbBefore && l.dbAfter == l.readiness.of.dbAfter
    ensures forall stop :: stop in t.stops ==> stop.exit.of.pid == stop.launch.of.pid
    ensures forall p, n: nat :: PreimageRetryable(p, n) in t.seals ==> p.of in t.pendings && n == p.of.dbBefore
    ensures forall p, r, n: nat :: PostimageChildAbsent(p, r, n) in t.seals ==>
      r.of in t.readinesses && r.of.pending == p && n == r.of.dbAfter
  {
    EvidencedAlways(s, actions, t);
    LinkedAlways(s, actions, t);
    EvidenceTells(t);
  }

  lemma EvidenceTells(t: State)
    requires Evidenced(t) && ReceiptsLinked(t)
    ensures forall l :: l in t.launches ==> l.dbBefore == l.pending.of.dbBefore && l.dbAfter == l.readiness.of.dbAfter
    ensures forall stop :: stop in t.stops ==> stop.exit.of.pid == stop.launch.of.pid
    ensures forall p, n: nat :: PreimageRetryable(p, n) in t.seals ==> p.of in t.pendings && n == p.of.dbBefore
    ensures forall p, r, n: nat :: PostimageChildAbsent(p, r, n) in t.seals ==>
      r.of in t.readinesses && r.of.pending == p && n == r.of.dbAfter
  {
    forall l | l in t.launches ensures l.dbAfter == l.readiness.of.dbAfter {
      assert ChainLinked(t, l);
    }
    forall seal | seal in t.seals ensures SealTrue(t, seal) {
    }
  }

  /** Nothing serves when a launch seals, takes its lock or reads readiness, nor when a stop is written. */
  lemma PortIsFree(s: State, a: Action, pid: Pid)
    requires Enabled(s, a) && pid in s.children
    requires || a in {Recovering(SealDead), Recovering(NothingToSeal), Recovering(SealLock), Handshaking(TakeLock)}
             || (a.Handshaking? && a.h.ReadReadiness?) || (a.Stopping? && a.t.WriteStop?)
    ensures !s.children[pid].step.Serving?
  {
    if a == Recovering(SealLock) {
      VerdictExactly(s, VerdictOf(s).pending);
    }
  }

  /** A scan remembers every launch whose process it found gone, and seals exactly those without a record. */
  lemma ScanRemembers(s: State, l: Launch)
    requires RecoveryEnabled(s, ReadDead)
    ensures var op := Recover(s, ReadDead).operator;
      && (l in op.scan.dead <==> l in s.launches && l.pid !in s.children)
      && (l in op.unsealed <==> l in s.launches && l.pid !in s.children && Unrecorded(s, l))
      && op.scan.preimage == s.operator.preimage && op.scan.seals == s.seals
  {
    UnsealedExactly(s, l);
  }

  /** The stop receipt is written exactly when the stopped process is gone, nothing serves, one exit receipt
      and no other is new since the challenge, and it is that process's answer to it. */
  lemma StopIsWrittenExactlyWhen(s: State, e: Exit)
    ensures StopEnabled(s, WriteStop(e)) <==>
      && s.operator.TermSent? && s.operator.launch.pid !in s.children
      && (forall pid :: pid in s.children ==> !s.children[pid].step.Serving?)
      && (forall x :: x in s.exits && x !in s.operator.exitsBefore <==> x == e)
      && e == Exit(LaunchSha(s.operator.launch), s.operator.launch.pid, Some(ChallengeSha(s.operator.challenge)))
  {
    if s.operator.TermSent? {
      var newExits := s.exits - s.operator.exitsBefore;
      assert forall x :: x in newExits <==> x in s.exits && x !in s.operator.exitsBefore;
      if forall x :: x in newExits <==> x == e {
        assert newExits == {e};
      }
      assert LaunchSha(e.launch.of) == e.launch;
    }
  }
}
