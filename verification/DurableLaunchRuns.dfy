/** Building runs of durable launch: what a scan, a launch and its child can reach. */
module DurableLaunchRuns {
  import opened Common
  import opened DurableLaunch

  ghost predicate CanReach(s: State, t: State) {
    exists actions :: Reaches(s, actions, t)
  }

  lemma FirstStep(s: State, a: Action, rest: seq<Action>, t: State)
    requires Enabled(s, a) && Reaches(Do(s, a), rest, t)
    ensures Reaches(s, [a] + rest, t)
  {
    assert ([a] + rest)[1..] == rest;
  }

  lemma {:induction false} ReachesThen(s: State, first: seq<Action>, t: State, rest: seq<Action>, u: State)
    requires Reaches(s, first, t) && Reaches(t, rest, u)
    ensures Reaches(s, first + rest, u)
    decreases |first|
  {
    if first == [] {
      assert first + rest == rest;
    } else {
      var a, others := first[0], first[1..];
      ReachesThen(Do(s, a), others, t, rest, u);
      FirstStep(s, a, others + rest, u);
      assert first + rest == [a] + (others + rest);
    }
  }

  lemma Step(s: State, a: Action)
    requires Enabled(s, a)
    ensures CanReach(s, Do(s, a))
  {
    assert Reaches(Do(s, a), [], Do(s, a));
    FirstStep(s, a, [], Do(s, a));
  }

  lemma Along(s: State, t: State, u: State)
    requires CanReach(s, t) && CanReach(t, u)
    ensures CanReach(s, u)
  {
    var first :| Reaches(s, first, t);
    var rest :| Reaches(t, rest, u);
    ReachesThen(s, first, t, rest, u);
  }

  /** One more step of a run. */
  lemma Then(s: State, t: State, a: Action)
    requires CanReach(s, t) && Enabled(t, a)
    ensures CanReach(s, Do(t, a))
  {
    Step(t, a);
    Along(s, t, Do(t, a));
  }

  // ---------------------------------------------------------------- scan

  /** Nothing that a scan can see is running. */
  predicate NothingRuns(s: State) {
    s.operator.Idle? && LiveGenerations(s) == {} && !Listening(s)
  }

  function ScanOf(s: State): Scan {
    Scan(Dead(s), s.db, s.seals)
  }

  /** After the scan and its generation seal. */
  function Sealed(s: State): State {
    s.(seals := s.seals + (set l | l in DeadUnsealed(s) :: ChildAbsent(LaunchSha(l), s.db)),
       operator := GenerationsSealed(ScanOf(s)))
  }

  lemma ReachesScanned(s: State)
    requires NothingRuns(s) && ScanPasses(s)
    ensures CanReach(s, s.(operator := Scanned(ScanOf(s), DeadUnsealed(s))))
  {
    var scan, unsealed := ScanOf(s), DeadUnsealed(s);
    var a := s.(operator := PreimageRead(s.db));
    Step(s, Recovering(ReadPreimage));
    var b := s.(operator := DeadRead(scan, unsealed));
    SameScan(s, a);
    assert Do(a, Recovering(ReadDead)) == b;
    Then(s, a, Recovering(ReadDead));
    var c := s.(operator := BytesMatched(scan, unsealed));
    SameScan(s, b);
    Then(s, b, Recovering(MatchBytes));
    SameScan(s, c);
    Then(s, c, Recovering(FindLive));
  }

  /** What a scan reads does not depend on how far the operator is. */
  lemma SameScan(s: State, t: State)
    requires t == s.(operator := t.operator)
    ensures Classifies(t) == Classifies(s) && OneAccounts(t) == OneAccounts(s)
    ensures Dead(t) == Dead(s) && DeadUnsealed(t) == DeadUnsealed(s) && LiveGenerations(t) == LiveGenerations(s)
  {
    forall l ensures StopsOf(t, l) == StopsOf(s, l) && SealsOf(t, l) == SealsOf(s, l) {
    }
    assert Dead(t) == Dead(s);
    forall l ensures Terminal(t, l) == Terminal(s, l) && AccountsFor(t, l) == AccountsFor(s, l) {
    }
    assert Accounting(t) == Accounting(s);
    assert DeadUnsealed(t) == DeadUnsealed(s);
  }

  lemma ReachesSealed(s: State)
    requires NothingRuns(s) && ScanPasses(s)
    ensures CanReach(s, Sealed(s))
  {
    ReachesScanned(s);
    var scanned := s.(operator := Scanned(ScanOf(s), DeadUnsealed(s)));
    var a := Recovering(if DeadUnsealed(s) == {} then NothingToSeal else SealDead);
    assert Enabled(scanned, a) && Do(scanned, a) == Sealed(s);
    Then(s, scanned, a);
  }

  // ---------------------------------------------------------------- launch

  /** A launch that has found or made the lock free, with its own lock and its pending receipt. */
  function WithPending(s: State): State
    requires s.operator.LockClear?
  {
    var scan := s.operator.scan;
    var p := Pending(s.nextId, scan.preimage);
    s.(lock := Some(s.nextId), nextId := s.nextId + 1, pendings := s.pendings + {p}, operator := PendingDurable(scan, p))
  }

  lemma ReachesPending(s: State)
    requires s.operator.LockClear? && s.lock.None? && !Listening(s)
    ensures CanReach(s, WithPending(s))
  {
    var locked := Do(s, Handshaking(TakeLock));
    Step(s, Handshaking(TakeLock));
    assert locked.operator == Locked(s.operator.scan, s.nextId);
    Then(s, locked, Handshaking(WritePending));
    assert Do(locked, Handshaking(WritePending)) == WithPending(s);
  }

  /** A launch from its scan to its pending receipt. */
  function Prepared(s: State): State {
    WithPending(Sealed(s).(operator := LockClear(ScanOf(s))))
  }

  lemma ReachesPrepared(s: State)
    requires NothingRuns(s) && ScanPasses(s) && s.lock.None?
    ensures CanReach(s, Prepared(s))
  {
    ReachesSealed(s);
    var clear := Sealed(s).(operator := LockClear(ScanOf(s)));
    assert Do(Sealed(s), Recovering(NoLock)) == clear;
    Then(s, Sealed(s), Recovering(NoLock));
    ReachesPending(clear);
    Along(s, clear, Prepared(s));
  }

  // ---------------------------------------------------------------- handshake

  function ReadinessFor(p: Pending, pid: Pid, before: nat, after: nat): Readiness {
    Readiness(p.id, pid, PendingSha(p), before, after)
  }

  /** The child has been created. */
  function JustForked(s: State): State
    requires s.operator.PendingDurable?
  {
    var p, pid := s.operator.pending, s.nextPid;
    s.(operator := Forked(s.operator.scan, p, pid), nextPid := pid + 1,
       children := s.children[pid := Child(p, Booting)])
  }

  /** The child has committed custody and written its readiness receipt. */
  function ChildReady(s: State): State
    requires s.operator.PendingDurable?
  {
    ReadyChild(JustForked(s), s.nextPid)
  }

  lemma ReachesReady(s: State)
    requires s.operator.PendingDurable?
    ensures CanReach(s, ChildReady(s))
  {
    Step(s, Handshaking(Fork));
    assert Do(s, Handshaking(Fork)) == JustForked(s);
    BootsToReady(JustForked(s), s.nextPid);
    Along(s, JustForked(s), ChildReady(s));
  }

  function ReadyChild(s: State, pid: Pid): State
    requires pid in s.children
  {
    var p := s.children[pid].pending;
    var r := ReadinessFor(p, pid, s.db, s.nextDb);
    s.(db := s.nextDb, nextDb := s.nextDb + 1, commits := s.commits[p.id := s.nextDb],
       readinesses := s.readinesses + {r}, children := s.children[pid := Child(p, Ready(r))])
  }

  lemma BootsToReady(s: State, pid: Pid)
    requires pid in s.children && s.children[pid].step.Booting?
    ensures CanReach(s, ReadyChild(s, pid))
  {
    var p := s.children[pid].pending;
    var committed := s.(db := s.nextDb, nextDb := s.nextDb + 1, commits := s.commits[p.id := s.nextDb],
                        children := s.children[pid := Child(p, Committed(s.db, s.nextDb))]);
    assert Enabled(s, ByChild(pid, Commits)) && Do(s, ByChild(pid, Commits)) == committed;
    Step(s, ByChild(pid, Commits));
    assert Enabled(committed, ByChild(pid, Readies));
    assert Do(committed, ByChild(pid, Readies)) == ReadyChild(s, pid);
    Then(s, committed, ByChild(pid, Readies));
  }

  /** The launch receipt is durable and its release sent. */
  function LaunchReleased(s: State): State
    requires s.operator.Forked? && s.operator.pid in s.children && s.children[s.operator.pid].step.Ready?
  {
    var l := LaunchFor(s.operator.pending, s.operator.pid, s.children[s.operator.pid].step.readiness);
    s.(launches := s.launches + {l}, released := s.released + {l}, operator := ReleaseSent(s.operator.scan, l))
  }

  lemma ReachesReleased(s: State, r: Readiness)
    requires s.operator.Forked? && s.operator.pid in s.children
    requires s.children[s.operator.pid].step == Ready(r) && ReadinessMatches(s, r, s.operator)
    ensures CanReach(s, LaunchReleased(s))
  {
    var op := s.operator;
    var l := LaunchFor(op.pending, op.pid, r);
    var read := s.(operator := ReadinessRead(op.scan, op.pending, op.pid, r));
    assert Do(s, Handshaking(ReadReadiness(r))) == read;
    Step(s, Handshaking(ReadReadiness(r)));
    var written := read.(launches := s.launches + {l}, operator := LaunchDurable(op.scan, l));
    assert Do(read, Handshaking(WriteLaunch)) == written;
    Then(s, read, Handshaking(WriteLaunch));
    assert Do(written, Handshaking(SendRelease)) == LaunchReleased(s);
    Then(s, written, Handshaking(SendRelease));
  }

  /** The child serves, the launcher has seen it and the lock is gone. */
  predicate Started(s: State, pid: Pid) {
    s.operator.Idle? && s.lock.None? && Serves(s, pid)
  }

  /** The end of an uninterrupted launch. */
  function ServingNow(s: State, l: Launch): State
    requires l.pid in s.children && s.children[l.pid].step.Ready?
  {
    var c := s.children[l.pid];
    s.(children := s.children[l.pid := c.(step := Serving(l, c.step.readiness))], served := s.served + {l.id},
       lock := None, operator := Idle)
  }

  lemma ReachesStarted(s: State, l: Launch)
    requires s.operator.ReleaseSent? && s.operator.launch == l && l in s.launches && l in s.released
    requires l.pid in s.children && ReleaseMatches(s, l, l.pid, s.children[l.pid])
    ensures CanReach(s, ServingNow(s, l)) && Started(ServingNow(s, l), l.pid)
  {
    var accepts := ByChild(l.pid, Accepts(l));
    Step(s, accepts);
    var serving := Do(s, accepts);
    assert Serves(serving, l.pid);
    Then(s, serving, Handshaking(Finish));
    assert Do(serving, Handshaking(Finish)) == ServingNow(s, l);
  }

  /** A whole handshake, from the pending receipt on. */
  function Handshaken(s: State): State
    requires s.operator.PendingDurable?
  {
    var p, pid := s.operator.pending, s.nextPid;
    var r := ReadinessFor(p, pid, s.db, s.nextDb);
    var l := LaunchFor(p, pid, r);
    s.(operator := Idle, lock := None, nextPid := pid + 1, db := s.nextDb, nextDb := s.nextDb + 1,
       commits := s.commits[p.id := s.nextDb], readinesses := s.readinesses + {r}, launches := s.launches + {l},
       released := s.released + {l}, served := s.served + {l.id}, children := s.children[pid := Child(p, Serving(l, r))])
  }

  lemma ReachesHandshaken(s: State)
    requires s.operator.PendingDurable? && s.children == map[] && s.operator.scan.preimage == s.db
    ensures CanReach(s, Handshaken(s))
  {
    ReachesReady(s);
    var b := ChildReady(s);
    var r := ReadinessFor(s.operator.pending, s.nextPid, s.db, s.nextDb);
    assert b.children == map[s.nextPid := Child(s.operator.pending, Ready(r))];
    ReadyIsMatched(b, r);
    ReachesReleased(b, r);
    var c := LaunchReleased(b);
    Along(s, b, c);
    ReachesStarted(c, c.operator.launch);
    Along(s, c, ServingNow(c, c.operator.launch));
    assert ServingNow(c, c.operator.launch) == Handshaken(s);
  }

  lemma ReadyIsMatched(s: State, r: Readiness)
    requires s.operator.Forked? && r in s.readinesses && r.pending.of == s.operator.pending
    requires r.id == s.operator.pending.id && r.pid == s.operator.pid && r.dbBefore == s.operator.scan.preimage
    requires forall pid :: pid in s.children ==> s.children[pid].step.Ready?
    ensures ReadinessMatches(s, r, s.operator)
  {
  }

  /** Progress: an uninterrupted launch gets its child to serve and frees the lock, from every state in
      which nothing is running, no lock is left and the generation scan passes. */
  lemma LaunchCanStart(s: State)
    requires s.operator.Idle? && s.children == map[] && s.lock.None? && ScanPasses(s)
    ensures CanReach(s, Handshaken(Prepared(s))) && Started(Handshaken(Prepared(s)), s.nextPid)
  {
    assert LiveGenerations(s) == {};
    ReachesPrepared(s);
    ReachesHandshaken(Prepared(s));
    Along(s, Prepared(s), Handshaken(Prepared(s)));
  }
}
