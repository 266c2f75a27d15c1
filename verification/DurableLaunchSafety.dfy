/** Safety of durable launch over every interleaving of operators, children and crashes. */
module DurableLaunchSafety {
  import opened DurableLaunch

  // ---------------------------------------------------------------- receipts are linked

  predicate ReceiptsLinked(s: State) {
    && (forall p :: p in s.pendings ==> p.id < s.nextId)
    && (forall r :: r in s.readinesses ==>
          r.pending.of in s.pendings && r.id == r.pending.of.id && r.pid < s.nextPid)
    && (forall l :: l in s.launches ==> ChainLinked(s, l) && l.pid < s.nextPid)
    && s.released <= s.launches
  }

  predicate ChildLinked(s: State, pid: Pid, c: Child) {
    && pid < s.nextPid && c.pending in s.pendings
    && (c.step.Ready? ==> OwnReadiness(s, pid, c, c.step.readiness))
    && (c.step.Serving? ==>
          && OwnReadiness(s, pid, c, c.step.own)
          && c.step.launch in s.launches && c.step.launch in s.released && c.step.launch.pid == pid
          && c.step.launch.id == c.pending.id && c.step.launch.readiness.of == c.step.own)
  }

  predicate OwnReadiness(s: State, pid: Pid, c: Child, r: Readiness) {
    r in s.readinesses && r.pid == pid && r.pending.of == c.pending && r.id == c.pending.id
  }

  predicate ChildrenLinked(s: State) {
    forall pid :: pid in s.children ==> ChildLinked(s, pid, s.children[pid])
  }

  predicate OperatorLinked(s: State) {
    match s.operator
    case Waiting(_, _, live) => live in s.launches
    case Locked(_, id) => id < s.nextId
    case PendingDurable(_, p) => p in s.pendings
    case Forked(_, p, pid) => p in s.pendings && pid < s.nextPid
    case ReadinessRead(_, p, pid, r) =>
      && p in s.pendings && pid < s.nextPid && r in s.readinesses
      && r.pending.of == p && r.id == p.id && r.pid == pid
    case LaunchDurable(_, l) => l in s.launches
    case ReleaseSent(_, l) => l in s.launches
    case StopSelected(l) => l in s.launches
    case TermSent(l, c, _) => l in s.launches && c in s.challenges && c.launch.of == l
    case _ => true
  }

  predicate Linked(s: State) {
    ReceiptsLinked(s) && ChildrenLinked(s) && OperatorLinked(s)
  }

  /** The scan and recovery part of a launch writes abnormal receipts and clears the lock, and
      touches nothing else durable; no receipt is ever removed. */
  lemma RecoveryFrame(s: State, a: RecoveryAction)
    requires RecoveryEnabled(s, a)
    ensures var t := Recover(s, a);
      && t == s.(seals := t.seals, lock := t.lock, operator := t.operator)
      && s.seals <= t.seals && (t.lock == s.lock || t.lock.None?)
  {
  }

  lemma RecoveryKeepsOperatorLinked(s: State, a: RecoveryAction)
    requires OperatorLinked(s) && RecoveryEnabled(s, a)
    ensures OperatorLinked(Recover(s, a))
  {
  }

  lemma RecoveryKeepsLinked(s: State, a: RecoveryAction)
    requires Linked(s) && RecoveryEnabled(s, a)
    ensures Linked(Recover(s, a))
  {
    RecoveryFrame(s, a);
    RecoveryKeepsOperatorLinked(s, a);
  }

  lemma HandshakeKeepsLinked(s: State, a: HandshakeAction)
    requires Linked(s) && HandshakeEnabled(s, a)
    ensures Linked(Handshake(s, a))
  {
  }

  lemma StopKeepsLinked(s: State, a: StopAction)
    requires Linked(s) && StopEnabled(s, a)
    ensures Linked(StopStep(s, a))
  {
  }

  lemma ChildKeepsLinked(s: State, pid: Pid, a: ChildAction)
    requires Linked(s) && ChildEnabled(s, pid, a)
    ensures Linked(ChildActs(s, pid, a))
  {
    assert ChildLinked(s, pid, s.children[pid]);
  }

  lemma StepKeepsLinked(s: State, a: Action)
    requires Linked(s) && Enabled(s, a)
    ensures Linked(Do(s, a))
  {
    match a
    case Recovering(r) => RecoveryKeepsLinked(s, r);
    case Handshaking(h) => HandshakeKeepsLinked(s, h);
    case Stopping(t) => StopKeepsLinked(s, t);
    case ByChild(pid, c) => ChildKeepsLinked(s, pid, c);
  }

  lemma {:induction false} LinkedAlways(s: State, actions: seq<Action>, t: State)
    requires Linked(s) && Reaches(s, actions, t)
    ensures Linked(t)
    decreases |actions|
  {
    if actions != [] {
      StepKeepsLinked(s, actions[0]);
      LinkedAlways(Do(s, actions[0]), actions[1..], t);
    }
  }

  /** Handshake: in every interleaving, with any process dying at any step and whatever
      the readiness message says, a child serves only after its release and under pending, readiness and launch receipts that all
      exist, are linked by digest and launch id, and name the child's own pid. */
  lemma ServingIsReceiptBound(s: State, actions: seq<Action>, t: State, pid: Pid)
    requires Initial(s) && Reaches(s, actions, t)
    requires pid in t.children && t.children[pid].step.Serving?
    ensures var c := t.children[pid]; var l := c.step.launch; var r := l.readiness.of;
      && l in t.launches && l in t.released && r in t.readinesses && c.pending in t.pendings
      && r.pending == PendingSha(c.pending) && l.pending == r.pending
      && l.id == c.pending.id && r.id == c.pending.id
      && l.pid == pid && r.pid == pid && l.dbAfter == r.dbAfter
  {
    LinkedAlways(s, actions, t);
    assert ChildLinked(t, pid, t.children[pid]);
  }

  // ---------------------------------------------------------------- one terminal record per generation

  predicate Buried(s: State, l: Launch) {
    l in s.launches && !Alive(s, l)
  }

  /** Stops are proven and unique, generation seals are unique, no generation has both, and
      both belong to dead generations. */
  predicate Terminals(s: State) {
    && (forall stop :: stop in s.stops ==>
          && StopProven(s, stop) && Buried(s, stop.launch.of)
          && stop.challenge.of in s.challenges && stop.challenge.of.launch == stop.launch)
    && (forall a, b :: a in s.stops && b in s.stops && a.launch == b.launch ==> a == b)
    && (forall seal :: seal in s.seals && seal.ChildAbsent? ==> Buried(s, seal.launch.of))
    && (forall a, b ::
          a in s.seals && b in s.seals && a.ChildAbsent? && b.ChildAbsent? && a.launch == b.launch ==> a == b)
    && (forall stop, seal :: stop in s.stops && seal in s.seals && seal.ChildAbsent? ==>
          stop.launch != seal.launch)
  }

  /** The generation has a stop receipt or a generation seal. */
  predicate Recorded(s: State, l: Launch) {
    || (exists stop :: stop in s.stops && stop.launch.of == l)
    || (exists seal :: seal in s.seals && seal.ChildAbsent? && seal.launch.of == l)
  }

  /** At most one generation seal and at most one recovery seal is new since the scan. */
  predicate FewNewSeals(s: State, scan: Scan) {
    && scan.seals <= s.seals
    && forall a, b ::
         a in s.seals - scan.seals && b in s.seals - scan.seals && a.ChildAbsent? == b.ChildAbsent? ==> a == b
  }

  predicate ScanHolds(s: State, scan: Scan) {
    && (forall l :: l in scan.dead ==> Buried(s, l))
    && FewNewSeals(s, scan)
  }

  predicate AllRecorded(s: State, dead: set<Launch>) {
    forall l :: l in dead ==> Recorded(s, l)
  }

  predicate OperatorGate(s: State) {
    match s.operator
    case Idle => true
    case PreimageRead(_) => true
    case DeadRead(scan, unsealed) => ScanFresh(s, scan, unsealed)
    case BytesMatched(scan, unsealed) => ScanFresh(s, scan, unsealed) && |unsealed| <= 1
    case Waiting(scan, unsealed, _) => ScanFresh(s, scan, unsealed) && |unsealed| <= 1
    case Scanned(scan, unsealed) => ScanFresh(s, scan, unsealed) && |unsealed| <= 1
    case GenerationsSealed(scan) => ScanHolds(s, scan) && AllRecorded(s, scan.dead) && OnlyGenerationSeals(s, scan)
    case StopSelected(l) => !Recorded(s, l)
    case TermSent(l, _, _) => !Recorded(s, l)
    case op => ScanHolds(s, op.scan) && AllRecorded(s, op.scan.dead)
  }

  predicate OnlyGenerationSeals(s: State, scan: Scan) {
    forall seal :: seal in s.seals - scan.seals ==> seal.ChildAbsent?
  }

  predicate ScanFresh(s: State, scan: Scan, unsealed: set<Launch>) {
    && (forall l :: l in scan.dead ==> Buried(s, l))
    && s.seals == scan.seals && unsealed <= scan.dead
    && (forall l :: l in unsealed ==> !Recorded(s, l))
    && AllRecorded(s, scan.dead - unsealed)
  }

  predicate Gated(s: State) {
    Linked(s) && Terminals(s) && OperatorGate(s)
  }

  lemma OneAtMost<T>(a: set<T>, x: T, y: T)
    requires |a| <= 1 && x in a && y in a
    ensures x == y
  {
    assert |a - {x}| == 0;
    assert y !in a - {x};
  }

  /** Steps that leave stops and seals alone and bring no dead process back keep both invariants. */
  predicate SameRecords(s: State, t: State) {
    && t.stops == s.stops && t.seals == s.seals
    && s.exits <= t.exits && s.challenges <= t.challenges && s.launches <= t.launches
    && forall pid :: pid in t.children && pid !in s.children ==> pid >= s.nextPid
  }

  lemma TerminalsFrame(s: State, t: State)
    requires Linked(s) && Terminals(s) && SameRecords(s, t)
    ensures Terminals(t)
  {
  }

  lemma GateFrame(s: State, t: State)
    requires Linked(s) && OperatorGate(s) && SameRecords(s, t) && t.operator == s.operator
    ensures OperatorGate(t)
  {
    forall l | l in s.launches ensures Recorded(t, l) == Recorded(s, l) && (Buried(s, l) ==> Buried(t, l)) {
    }
  }

  lemma DeadReadIsFresh(s: State, preimage: nat)
    requires Linked(s) && Terminals(s) && Classifies(s)
    ensures ScanFresh(s, Scan(Dead(s), preimage, s.seals), DeadUnsealed(s))
  {
    forall l | l in Dead(s) ensures l in DeadUnsealed(s) <==> !Recorded(s, l) {
      if stop :| stop in s.stops && stop.launch.of == l {
        assert stop in StopsOf(s, l);
      } else if seal :| seal in s.seals && seal.ChildAbsent? && seal.launch.of == l {
        assert SealsOf(s, l) == {seal};
      } else {
        assert StopsOf(s, l) == {} && SealsOf(s, l) == {};
      }
    }
  }

  lemma SealDeadKeepsGated(s: State)
    requires Gated(s) && RecoveryEnabled(s, SealDead)
    ensures Terminals(Recover(s, SealDead)) && OperatorGate(Recover(s, SealDead))
  {
    var t := Recover(s, SealDead);
    var unsealed := s.operator.unsealed;
    forall x, y | x in t.seals - s.seals && y in t.seals - s.seals ensures x == y {
      OneAtMost(unsealed, x.launch.of, y.launch.of);
    }
    forall l | l in s.operator.scan.dead ensures Recorded(t, l) {
      if l in unsealed {
        assert ChildAbsent(LaunchSha(l), s.db) in t.seals;
      } else {
        assert Recorded(s, l);
        if seal :| seal in s.seals && seal.ChildAbsent? && seal.launch.of == l {
          assert seal in t.seals;
        }
      }
    }
    forall seal | seal in t.seals && seal !in s.seals ensures !Recorded(s, seal.launch.of) {
    }
  }

  lemma SealLockKeepsGated(s: State)
    requires Gated(s) && RecoveryEnabled(s, SealLock)
    ensures Terminals(Recover(s, SealLock)) && OperatorGate(Recover(s, SealLock))
  {
    var t := Recover(s, SealLock);
    forall l | Recorded(s, l) ensures Recorded(t, l) {
      if seal :| seal in s.seals && seal.ChildAbsent? && seal.launch.of == l {
        assert seal in t.seals;
      }
    }
  }

  /** Steps that only move the operator within or past the scan keep what its gate knows. */
  lemma ScanFrame(s: State, op: Operator, scan: Scan, unsealed: set<Launch>)
    requires ScanFresh(s, scan, unsealed)
    ensures ScanFresh(s.(operator := op), scan, unsealed)
  {
    var t := s.(operator := op);
    forall l ensures Recorded(t, l) == Recorded(s, l) && Buried(t, l) == Buried(s, l) {
    }
  }

  lemma ReadDeadKeepsGate(s: State)
    requires Linked(s) && Terminals(s) && RecoveryEnabled(s, ReadDead)
    ensures OperatorGate(Recover(s, ReadDead))
  {
    DeadReadIsFresh(s, s.operator.preimage);
    ScanFrame(s, Recover(s, ReadDead).operator, Scan(Dead(s), s.operator.preimage, s.seals), DeadUnsealed(s));
  }

  lemma ScanKeepsGate(s: State, a: RecoveryAction)
    requires OperatorGate(s) && RecoveryEnabled(s, a) && (a.MatchBytes? || a.FindLive? || a.WaitedOut?)
    ensures OperatorGate(Recover(s, a))
  {
    ScanFrame(s, Recover(s, a).operator, s.operator.scan, s.operator.unsealed);
  }

  lemma SealedKeepsGate(s: State, a: RecoveryAction)
    requires Linked(s) && OperatorGate(s) && RecoveryEnabled(s, a)
    requires a.NothingToSeal? || a.Unlock? || a.NoLock?
    ensures OperatorGate(Recover(s, a))
  {
    var t := Recover(s, a);
    GateFrame(s, t.(operator := s.operator));
    if a.NothingToSeal? {
      assert s.operator.scan.dead - s.operator.unsealed == s.operator.scan.dead;
    }
  }

  lemma RecoveryKeepsGated(s: State, a: RecoveryAction)
    requires Gated(s) && RecoveryEnabled(s, a)
    ensures Gated(Recover(s, a))
  {
    RecoveryKeepsLinked(s, a);
    if a.SealDead? {
      SealDeadKeepsGated(s);
    } else if a.SealLock? {
      SealLockKeepsGated(s);
    } else {
      RecoveryFrame(s, a);
      TerminalsFrame(s, Recover(s, a));
      if a.ReadDead? {
        ReadDeadKeepsGate(s);
      } else if a.MatchBytes? || a.FindLive? || a.WaitedOut? {
        ScanKeepsGate(s, a);
      } else if !a.ReadPreimage? {
        SealedKeepsGate(s, a);
      }
    }
  }

  lemma HandshakeKeepsGated(s: State, a: HandshakeAction)
    requires Gated(s) && HandshakeEnabled(s, a)
    ensures Gated(Handshake(s, a))
  {
    HandshakeKeepsLinked(s, a);
    var t := Handshake(s, a);
    assert SameRecords(s, t);
    TerminalsFrame(s, t);
    GateFrame(s, t.(operator := s.operator));
  }

  lemma WriteStopKeepsTerminals(s: State, e: Exit)
    requires Gated(s) && StopEnabled(s, WriteStop(e))
    ensures Terminals(StopStep(s, WriteStop(e)))
  {
    var t := StopStep(s, WriteStop(e));
    forall stop | stop in t.stops && stop !in s.stops
      ensures stop.launch.of == s.operator.launch && StopProven(t, stop) && Buried(t, stop.launch.of)
      ensures stop.challenge.of == s.operator.challenge && stop.challenge.of in t.challenges
    {
    }
  }

  lemma StopKeepsGated(s: State, a: StopAction)
    requires Gated(s) && StopEnabled(s, a)
    ensures Gated(StopStep(s, a))
  {
    StopKeepsLinked(s, a);
    if a.WriteStop? {
      WriteStopKeepsTerminals(s, a.seen);
    } else {
      TerminalsFrame(s, StopStep(s, a));
      if a.SelectForStop? {
        assert Alive(s, a.target);
      }
    }
  }

  lemma ChildKeepsGated(s: State, pid: Pid, a: ChildAction)
    requires Gated(s) && ChildEnabled(s, pid, a)
    ensures Gated(ChildActs(s, pid, a))
  {
    ChildKeepsLinked(s, pid, a);
    var t := ChildActs(s, pid, a);
    assert SameRecords(s, t);
    TerminalsFrame(s, t);
    GateFrame(s, t);
  }

  lemma {:induction false} GatedAlways(s: State, actions: seq<Action>, t: State)
    requires Gated(s) && Reaches(s, actions, t)
    ensures Gated(t)
    decreases |actions|
  {
    if actions != [] {
      match actions[0] {
        case Recovering(r) => RecoveryKeepsGated(s, r);
        case Handshaking(h) => HandshakeKeepsGated(s, h);
        case Stopping(x) => StopKeepsGated(s, x);
        case ByChild(pid, c) => ChildKeepsGated(s, pid, c);
      }
      GatedAlways(Do(s, actions[0]), actions[1..], t);
    }
  }

  /** A challenge, exit and stop that match, or one abnormal seal, and never both. */
  predicate ExactlyOneRecord(s: State, l: Launch) {
    || (&& StoppedFor(s, l) && SealsOf(s, l) == {}
        && forall stop :: stop in StopsOf(s, l) ==>
             stop.challenge.of in s.challenges && stop.challenge.of.launch.of == l)
    || (StopsOf(s, l) == {} && |SealsOf(s, l)| == 1)
  }

  /** Generation gate: whenever a launch is about to create its child, every completed generation
      its scan found dead has exactly one terminal record, and the launch itself has added at
      most one generation seal and one recovery seal. */
  lemma ForkSeesOnlyRecordedGenerations(s: State, actions: seq<Action>, t: State, l: Launch)
    requires Initial(s) && Reaches(s, actions, t) && HandshakeEnabled(t, Fork)
    requires l in t.operator.scan.dead
    ensures ExactlyOneRecord(t, l) && FewNewSeals(t, t.operator.scan)
  {
    GatedAlways(s, actions, t);
    RecordedOnce(t, l);
  }

  lemma RecordedOnce(s: State, l: Launch)
    requires Terminals(s) && Recorded(s, l)
    ensures ExactlyOneRecord(s, l)
  {
    if stop :| stop in s.stops && stop.launch.of == l {
      assert StopsOf(s, l) == {stop} && SealsOf(s, l) == {};
    } else {
      var seal :| seal in s.seals && seal.ChildAbsent? && seal.launch.of == l;
      assert SealsOf(s, l) == {seal} && StopsOf(s, l) == {};
    }
  }
}
