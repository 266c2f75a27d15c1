/** Quiet runs of durable launch, and the invariant they keep. */
module DurableLaunchQuiet {
  import opened Common
  import opened DurableLaunch
  import opened DurableLaunchSafety
  import opened DurableLaunchAttempts

  // ---------------------------------------------------------------- quiet runs

  /** Every launched child has got as far as serving. */
  predicate Settled(s: State) {
    forall pid :: pid in s.children ==> s.children[pid].step.Serving?
  }

  /** A launch is reading digest, processes and receipts. */
  predicate Scanning(op: Operator) {
    op.PreimageRead? || op.DeadRead? || op.BytesMatched?
  }

  predicate QuietStep(s: State, a: Action) {
    && (a == Recovering(ReadPreimage) ==> Settled(s))
    && (a.ByChild? && (a.c.Exits? || a.c.Dies?) ==> !Scanning(s.operator))
  }

  /** A run in which no launch starts to scan while a child is still on its way to serving, and no
      child ends while a launch scans.  Otherwise any process may die at any step. */
  ghost predicate QuietReaches(s: State, actions: seq<Action>, t: State)
    decreases |actions|
  {
    if actions == [] then s == t
    else
      && Enabled(s, actions[0]) && QuietStep(s, actions[0])
      && QuietReaches(Do(s, actions[0]), actions[1..], t)
  }

  // ---------------------------------------------------------------- the invariant

  predicate Latest(s: State, id: LaunchId) {
    id + 1 == s.nextId
  }

  predicate Ids(s: State) {
    && (s.lock.Some? ==> Latest(s, s.lock.value))
    && (forall pid :: pid in s.children ==> Latest(s, s.children[pid].pending.id))
    && (forall p, q :: p in s.children && q in s.children ==> p == q)
    && s.served <= s.commits.Keys
    && (forall r :: r in s.readinesses && r.pid in s.children ==> r.pending.of == s.children[r.pid].pending)
  }

  predicate OneLaunchEach(s: State) {
    forall l, m :: l in s.launches && m in s.launches && l.id == m.id ==> l == m
  }

  predicate Clear(s: State, scan: Scan) {
    s.children == map[] && scan.preimage == s.db && scan.dead == s.launches && OneAccounts(s)
  }

  predicate NoLaunch(s: State, id: LaunchId) { forall l :: l in s.launches ==> l.id != id }

  predicate Phase(s: State) {
    match s.operator
    case Idle => true
    case PreimageRead(preimage) => Settled(s) && (s.children == map[] ==> preimage == s.db)
    case DeadRead(scan, _) => Settled(s) && (s.children == map[] ==> scan.preimage == s.db && scan.dead == s.launches)
    case BytesMatched(scan, _) => Settled(s) && (s.children == map[] ==> Clear(s, scan))
    case Waiting(_, _, _) => false
    case Scanned(scan, _) => Clear(s, scan)
    case GenerationsSealed(scan) => Clear(s, scan)
    case LockSealed(scan) => Clear(s, scan)
    case LockClear(scan) => Clear(s, scan) && s.lock.None?
    case Locked(scan, id) => Clear(s, scan) && s.lock == Some(id) && id !in s.commits && NoPending(s, id)
    case PendingDurable(scan, p) => Clear(s, scan) && s.lock == Some(p.id) && p.id !in s.commits && NoLaunch(s, p.id)
    case Forked(_, p, _) => s.lock == Some(p.id) && NoLaunch(s, p.id)
    case ReadinessRead(_, p, _, _) => s.lock == Some(p.id) && NoLaunch(s, p.id)
    case LaunchDurable(_, l) => s.lock == Some(l.id)
    case ReleaseSent(_, l) => s.lock == Some(l.id)
    case StopSelected(l) => Latest(s, l.id)
    case TermSent(l, _, _) => Latest(s, l.id)
  }

  /** Later attempts commit later digests, and a stop of an earlier generation saw an earlier one. */
  predicate Ordered(s: State) {
    && (forall i, j :: i in s.commits && j in s.commits && i < j ==> s.commits[i] < s.commits[j])
    && (forall stop :: stop in s.stops ==> stop.dbAfter <= s.db)
    && (forall stop, j :: stop in s.stops && j in s.commits && stop.launch.of.id < j ==> stop.dbAfter < s.commits[j])
  }

  /** What the database holds while an attempt's lock is there. */
  predicate Bytes(s: State) {
    s.lock.Some? ==>
      var id := s.lock.value;
      && (id !in s.commits ==> OneAccounts(s) && forall p :: p in s.pendings && p.id == id ==> p.dbBefore == s.db)
      && (id in s.commits && id !in s.served ==> s.db == s.commits[id])
  }

  /** Every generation but the latest has its terminal record. */
  predicate PastRecorded(s: State) {
    forall l :: l in s.launches && !Latest(s, l.id) ==> Recorded(s, l)
  }

  predicate Quiet(s: State) {
    Gated(s) && Traced(s) && Ids(s) && OneLaunchEach(s) && Phase(s) && Ordered(s) && Bytes(s) && PastRecorded(s)
  }

  // ---------------------------------------------------------------- every step keeps it

  /** The last reading of a settled runtime finds a serving generation and ends the launch there, or
      finds no process at all. */
  lemma SettledScan(s: State)
    requires Linked(s) && Settled(s) && RecoveryEnabled(s, FindLive)
    ensures s.children != map[] ==> Recover(s, FindLive) == s.(operator := Idle)
    ensures s.children == map[] ==> Recover(s, FindLive).operator.Scanned?
  {
    if pid :| pid in s.children {
      assert ChildLinked(s, pid, s.children[pid]);
      var l := s.children[pid].step.launch;
      assert l in LiveGenerations(s);
    } else {
      assert LiveGenerations(s) == {};
    }
  }

  /** The accounting of generations reads only launches, stops, their evidence and the digest. */
  lemma AccountsFrame(s: State, t: State)
    requires t.launches == s.launches && t.stops == s.stops && t.db == s.db
    requires t.exits == s.exits && t.challenges == s.challenges
    ensures OneAccounts(t) == OneAccounts(s)
  {
    forall l ensures AccountsFor(t, l) == AccountsFor(s, l) {
      assert StopsOf(t, l) == StopsOf(s, l);
    }
    assert Accounting(t) == Accounting(s);
  }

  lemma ScanKeepsPhase(s: State, a: RecoveryAction)
    requires Linked(s) && Phase(s) && RecoveryEnabled(s, a) && QuietStep(s, Recovering(a))
    requires a.ReadPreimage? || a.ReadDead? || a.MatchBytes? || a.FindLive?
    ensures Phase(Recover(s, a))
  {
    AccountsFrame(s, Recover(s, a));
    if a.FindLive? {
      SettledScan(s);
    }
  }

  lemma RecoveryKeepsPhase(s: State, a: RecoveryAction)
    requires Linked(s) && Phase(s) && RecoveryEnabled(s, a) && QuietStep(s, Recovering(a))
    ensures Phase(Recover(s, a))
  {
    if a.ReadPreimage? || a.ReadDead? || a.MatchBytes? || a.FindLive? {
      ScanKeepsPhase(s, a);
    } else {
      RecoveryFrame(s, a);
      AccountsFrame(s, Recover(s, a));
    }
  }

  lemma RecoveryKeepsRecords(s: State, a: RecoveryAction)
    requires Quiet(s) && RecoveryEnabled(s, a)
    ensures PastRecorded(Recover(s, a))
  {
    RecoveryFrame(s, a);
    forall l | Recorded(s, l) ensures Recorded(Recover(s, a), l) {
      if seal :| seal in s.seals && seal.ChildAbsent? && seal.launch.of == l {
        assert seal in Recover(s, a).seals;
      }
    }
  }

  lemma RecoveryKeepsTheRest(s: State, a: RecoveryAction)
    requires Ids(s) && OneLaunchEach(s) && Ordered(s) && Bytes(s) && RecoveryEnabled(s, a)
    ensures var t := Recover(s, a); Ids(t) && OneLaunchEach(t) && Ordered(t) && Bytes(t)
  {
    RecoveryFrame(s, a);
    AccountsFrame(s, Recover(s, a));
  }

  lemma RecoveryKeepsQuiet(s: State, a: RecoveryAction)
    requires Quiet(s) && RecoveryEnabled(s, a) && QuietStep(s, Recovering(a))
    ensures Quiet(Recover(s, a))
  {
    RecoveryKeepsGated(s, a);
    RecoveryKeepsTraced(s, a);
    RecoveryKeepsPhase(s, a);
    RecoveryKeepsRecords(s, a);
    RecoveryKeepsTheRest(s, a);
  }

  /** Custody is committed only under ids already given out. */
  lemma CommitsArePast(s: State)
    requires Linked(s) && Numbered(s)
    ensures forall i :: i in s.commits ==> i < s.nextId
  {
    forall i | i in s.commits ensures i < s.nextId {
      assert !NoPending(s, i);
    }
  }

  lemma HandshakeKeepsIds(s: State, a: HandshakeAction)
    requires Linked(s) && Ids(s) && Phase(s) && HandshakeEnabled(s, a)
    ensures Ids(Handshake(s, a))
  {
  }

  lemma HandshakeKeepsLaunches(s: State, a: HandshakeAction)
    requires OneLaunchEach(s) && Phase(s) && HandshakeEnabled(s, a)
    ensures OneLaunchEach(Handshake(s, a))
  {
  }

  lemma HandshakeKeepsPhase(s: State, a: HandshakeAction)
    requires Linked(s) && Numbered(s) && Ids(s) && Phase(s) && HandshakeEnabled(s, a)
    ensures Phase(Handshake(s, a))
  {
    CommitsArePast(s);
    if !a.WriteLaunch? {
      AccountsFrame(s, Handshake(s, a));
    }
  }

  lemma HandshakeKeepsOrdered(s: State, a: HandshakeAction)
    requires Ordered(s) && HandshakeEnabled(s, a)
    ensures Ordered(Handshake(s, a))
  {
  }

  lemma HandshakeKeepsBytes(s: State, a: HandshakeAction)
    requires Linked(s) && Numbered(s) && ReadinessTrue(s) && Ids(s) && Phase(s) && Bytes(s) && HandshakeEnabled(s, a)
    ensures Bytes(Handshake(s, a))
  {
    CommitsArePast(s);
    if !a.WriteLaunch? {
      AccountsFrame(s, Handshake(s, a));
    }
  }

  lemma HandshakeKeepsRecords(s: State, a: HandshakeAction)
    requires OperatorGate(s) && Ids(s) && Phase(s) && PastRecorded(s) && HandshakeEnabled(s, a)
    ensures PastRecorded(Handshake(s, a))
  {
    forall l | l in s.launches ensures Recorded(Handshake(s, a), l) == Recorded(s, l) {
    }
  }

  lemma HandshakeKeepsQuiet(s: State, a: HandshakeAction)
    requires Quiet(s) && HandshakeEnabled(s, a)
    ensures Quiet(Handshake(s, a))
  {
    HandshakeKeepsGated(s, a);
    HandshakeKeepsTraced(s, a);
    HandshakeKeepsIds(s, a);
    HandshakeKeepsLaunches(s, a);
    HandshakeKeepsPhase(s, a);
    HandshakeKeepsOrdered(s, a);
    HandshakeKeepsBytes(s, a);
    HandshakeKeepsRecords(s, a);
  }

  lemma StopKeepsPhase(s: State, a: StopAction)
    requires Linked(s) && Ids(s) && Phase(s) && StopEnabled(s, a)
    ensures Phase(StopStep(s, a)) && Ids(StopStep(s, a))
  {
  }

  /** The generation being stopped is the latest. */
  lemma StopKeepsOrdered(s: State, a: StopAction)
    requires Linked(s) && Numbered(s) && Phase(s) && Ordered(s) && StopEnabled(s, a)
    ensures Ordered(StopStep(s, a))
  {
    CommitsArePast(s);
  }

  /** The generation being stopped has its custody committed. */
  lemma StopFollowsCommit(s: State)
    requires Linked(s) && Ids(s) && Phase(s) && ReadinessTrue(s)
    requires s.operator.StopSelected? || s.operator.TermSent?
    ensures s.lock.Some? ==> s.lock.value in s.commits
  {
    assert ChainLinked(s, s.operator.launch);
    assert s.operator.launch.readiness.of in s.readinesses;
  }

  lemma StopKeepsBytes(s: State, a: StopAction)
    requires Linked(s) && Ids(s) && Phase(s) && ReadinessTrue(s) && Bytes(s) && StopEnabled(s, a)
    ensures Bytes(StopStep(s, a))
  {
    if a.SendTerm? || a.WriteStop? {
      StopFollowsCommit(s);
    } else {
      AccountsFrame(s, StopStep(s, a));
    }
  }

  lemma StopKeepsRecords(s: State, a: StopAction)
    requires PastRecorded(s) && StopEnabled(s, a)
    ensures PastRecorded(StopStep(s, a))
  {
    forall l | Recorded(s, l) ensures Recorded(StopStep(s, a), l) {
      if stop :| stop in s.stops && stop.launch.of == l {
        assert stop in StopStep(s, a).stops;
      }
    }
  }

  lemma StopKeepsQuiet(s: State, a: StopAction)
    requires Quiet(s) && StopEnabled(s, a)
    ensures Quiet(StopStep(s, a))
  {
    StopKeepsGated(s, a);
    StopKeepsTraced(s, a);
    StopKeepsPhase(s, a);
    StopKeepsOrdered(s, a);
    StopKeepsBytes(s, a);
    StopKeepsRecords(s, a);
  }

  lemma ChildKeepsIds(s: State, pid: Pid, a: ChildAction)
    requires Linked(s) && Ids(s) && ChildDigests(s) && ChildEnabled(s, pid, a)
    ensures Ids(ChildActs(s, pid, a))
  {
    assert ChildLinked(s, pid, s.children[pid]);
    assert ChildDigest(s, s.children[pid]);
  }

  lemma ChildKeepsPhase(s: State, pid: Pid, a: ChildAction)
    requires Phase(s) && ChildEnabled(s, pid, a) && QuietStep(s, ByChild(pid, a))
    ensures Phase(ChildActs(s, pid, a))
  {
  }

  lemma ChildKeepsOrdered(s: State, pid: Pid, a: ChildAction)
    requires Linked(s) && Numbered(s) && Dated(s) && ChildDigests(s) && Ids(s) && Ordered(s) && ChildEnabled(s, pid, a)
    ensures Ordered(ChildActs(s, pid, a))
  {
    CommitsArePast(s);
    assert ChildDigest(s, s.children[pid]);
  }

  lemma ChildKeepsBytes(s: State, pid: Pid, a: ChildAction)
    requires Ids(s) && ChildDigests(s) && Bytes(s) && ChildEnabled(s, pid, a)
    ensures Bytes(ChildActs(s, pid, a))
  {
    assert ChildDigest(s, s.children[pid]);
    if a.Dies? || a.Readies? || a.Accepts? {
      AccountsFrame(s, ChildActs(s, pid, a));
    }
  }

  lemma ChildKeepsRecords(s: State, pid: Pid, a: ChildAction)
    requires PastRecorded(s) && OneLaunchEach(s) && ChildEnabled(s, pid, a)
    ensures PastRecorded(ChildActs(s, pid, a)) && OneLaunchEach(ChildActs(s, pid, a))
  {
    forall l | l in s.launches ensures Recorded(ChildActs(s, pid, a), l) == Recorded(s, l) {
    }
  }

  lemma ChildKeepsQuiet(s: State, pid: Pid, a: ChildAction)
    requires Quiet(s) && ChildEnabled(s, pid, a) && QuietStep(s, ByChild(pid, a))
    ensures Quiet(ChildActs(s, pid, a))
  {
    ChildKeepsGated(s, pid, a);
    ChildKeepsTraced(s, pid, a);
    ChildKeepsIds(s, pid, a);
    ChildKeepsPhase(s, pid, a);
    ChildKeepsOrdered(s, pid, a);
    ChildKeepsBytes(s, pid, a);
    ChildKeepsRecords(s, pid, a);
  }

  lemma {:induction false} QuietAlways(s: State, actions: seq<Action>, t: State)
    requires Quiet(s) && QuietReaches(s, actions, t)
    ensures Quiet(t)
    decreases |actions|
  {
    if actions != [] {
      match actions[0] {
        case Recovering(r) => RecoveryKeepsQuiet(s, r);
        case Handshaking(h) => HandshakeKeepsQuiet(s, h);
        case Stopping(x) => StopKeepsQuiet(s, x);
        case ByChild(pid, c) => ChildKeepsQuiet(s, pid, c);
      }
      QuietAlways(Do(s, actions[0]), actions[1..], t);
    }
  }
}
