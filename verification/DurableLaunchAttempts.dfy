/** What receipts and bytes say about launch attempts, in every run. */
module DurableLaunchAttempts {
  import opened Common
  import opened DurableLaunch
  import opened DurableLaunchSafety

  // ---------------------------------------------------------------- the invariant

  predicate NoPending(s: State, id: LaunchId) { forall p :: p in s.pendings ==> p.id != id }

  /** Launch ids are used once: one pending receipt and one child each, and custody is committed only
      under a pending receipt. */
  predicate Numbered(s: State) {
    && (forall p, q :: p in s.pendings && q in s.pendings && p.id == q.id ==> p == q)
    && (forall i :: i in s.commits ==> !NoPending(s, i))
    && (forall p, q ::
          p in s.children && q in s.children && s.children[p].pending.id == s.children[q].pending.id ==> p == q)
    && (s.operator.Locked? ==> NoPending(s, s.operator.id))
    && (s.operator.PendingDurable? ==> NotForked(s, s.operator.pending.id))
  }

  predicate NotForked(s: State, id: LaunchId) {
    id !in s.commits && forall pid :: pid in s.children ==> s.children[pid].pending.id != id
  }

  /** Every digest a launch remembers is of the past, and a commit is newer than its preimage. */
  predicate Dated(s: State) {
    && s.db < s.nextDb
    && (forall i :: i in s.commits ==> s.commits[i] <= s.db)
    && (forall p :: p in s.pendings ==> p.dbBefore <= s.db && (p.id in s.commits ==> p.dbBefore < s.commits[p.id]))
    && Remembers(s.operator, s.db)
  }

  /** A preimage that is still to be written into a pending receipt. */
  predicate Remembers(op: Operator, db: nat) {
    match op
    case PreimageRead(preimage) => preimage <= db
    case DeadRead(scan, _) => scan.preimage <= db
    case BytesMatched(scan, _) => scan.preimage <= db
    case Waiting(scan, _, _) => scan.preimage <= db
    case Scanned(scan, _) => scan.preimage <= db
    case GenerationsSealed(scan) => scan.preimage <= db
    case LockSealed(scan) => scan.preimage <= db
    case LockClear(scan) => scan.preimage <= db
    case Locked(scan, _) => scan.preimage <= db
    case _ => true
  }

  /** A readiness receipt is the only one of its attempt and tells what that attempt committed. */
  predicate ReadinessTrue(s: State) {
    && (forall r :: r in s.readinesses ==> r.id in s.commits && r.dbAfter == s.commits[r.id])
    && (forall q, r :: q in s.readinesses && r in s.readinesses && q.id == r.id ==> q == r)
  }

  predicate ChildDigest(s: State, c: Child) {
    match c.step
    case Booting => c.pending.id !in s.commits
    case Committed(_, after) =>
      && c.pending.id in s.commits && s.commits[c.pending.id] == after
      && forall r :: r in s.readinesses ==> r.id != c.pending.id
    case Ready(_) => c.pending.id in s.commits
    case Serving(_, _) => c.pending.id in s.served
  }

  predicate ChildDigests(s: State) {
    forall pid :: pid in s.children ==> ChildDigest(s, s.children[pid])
  }

  predicate Traced(s: State) {
    Linked(s) && Numbered(s) && Dated(s) && ReadinessTrue(s) && ChildDigests(s)
  }

  // ---------------------------------------------------------------- every step keeps it

  /** Steps that leave attempts, children and bytes alone. */
  predicate SameAttempts(s: State, t: State) {
    && t.pendings == s.pendings && t.readinesses == s.readinesses && t.children == s.children
    && t.commits == s.commits && t.served == s.served && t.db == s.db && t.nextDb == s.nextDb
    && !t.operator.Locked? && !t.operator.PendingDurable?
  }

  lemma NumberedFrame(s: State, t: State)
    requires Numbered(s) && SameAttempts(s, t)
    ensures Numbered(t)
  {
    forall i | i in t.commits ensures !NoPending(t, i) {
      assert !NoPending(s, i);
    }
  }

  lemma ChildDigestsFrame(s: State, t: State)
    requires ChildDigests(s) && ReadinessTrue(s) && SameAttempts(s, t)
    ensures ChildDigests(t) && ReadinessTrue(t)
  {
    assert forall pid :: pid in s.children ==> ChildDigest(s, s.children[pid]);
  }

  lemma RecoveryKeepsDated(s: State, a: RecoveryAction)
    requires Dated(s) && RecoveryEnabled(s, a)
    ensures Dated(Recover(s, a)) && SameAttempts(s, Recover(s, a))
  {
    RecoveryFrame(s, a);
  }

  lemma RecoveryKeepsTraced(s: State, a: RecoveryAction)
    requires Traced(s) && RecoveryEnabled(s, a)
    ensures Traced(Recover(s, a))
  {
    RecoveryKeepsLinked(s, a);
    RecoveryKeepsDated(s, a);
    NumberedFrame(s, Recover(s, a));
    ChildDigestsFrame(s, Recover(s, a));
  }

  lemma HandshakeKeepsNumbered(s: State, a: HandshakeAction)
    requires Linked(s) && Numbered(s) && HandshakeEnabled(s, a)
    ensures Numbered(Handshake(s, a))
  {
    var t := Handshake(s, a);
    forall i | i in t.commits ensures !NoPending(t, i) {
      assert !NoPending(s, i);
    }
    if a.WritePending? {
      assert forall i :: i in s.commits ==> i != s.operator.id;
      assert forall pid :: pid in s.children ==> ChildLinked(s, pid, s.children[pid]);
    }
  }

  lemma HandshakeKeepsDated(s: State, a: HandshakeAction)
    requires Numbered(s) && Dated(s) && HandshakeEnabled(s, a)
    ensures Dated(Handshake(s, a))
  {
  }

  lemma HandshakeKeepsChildDigests(s: State, a: HandshakeAction)
    requires Numbered(s) && ChildDigests(s) && HandshakeEnabled(s, a)
    ensures ChildDigests(Handshake(s, a))
  {
    assert forall pid :: pid in s.children ==> ChildDigest(s, s.children[pid]);
  }

  lemma HandshakeKeepsTraced(s: State, a: HandshakeAction)
    requires Traced(s) && HandshakeEnabled(s, a)
    ensures Traced(Handshake(s, a))
  {
    HandshakeKeepsLinked(s, a);
    HandshakeKeepsNumbered(s, a);
    HandshakeKeepsDated(s, a);
    HandshakeKeepsChildDigests(s, a);
  }

  lemma StopKeepsDated(s: State, a: StopAction)
    requires Dated(s) && StopEnabled(s, a)
    ensures Dated(StopStep(s, a)) && SameAttempts(s, StopStep(s, a))
  {
  }

  lemma StopKeepsTraced(s: State, a: StopAction)
    requires Traced(s) && StopEnabled(s, a)
    ensures Traced(StopStep(s, a))
  {
    StopKeepsLinked(s, a);
    StopKeepsDated(s, a);
    NumberedFrame(s, StopStep(s, a));
    ChildDigestsFrame(s, StopStep(s, a));
  }

  lemma ChildKeepsNumbered(s: State, pid: Pid, a: ChildAction)
    requires Linked(s) && Numbered(s) && ChildEnabled(s, pid, a)
    ensures Numbered(ChildActs(s, pid, a))
  {
    var t := ChildActs(s, pid, a);
    assert ChildLinked(s, pid, s.children[pid]);
    forall i | i in t.commits ensures !NoPending(t, i) {
      assert i in s.commits ==> !NoPending(s, i);
    }
  }

  lemma ChildKeepsDated(s: State, pid: Pid, a: ChildAction)
    requires Dated(s) && ChildEnabled(s, pid, a) && ChildDigest(s, s.children[pid])
    ensures Dated(ChildActs(s, pid, a))
  {
  }

  lemma ChildKeepsReadinessTrue(s: State, pid: Pid, a: ChildAction)
    requires ReadinessTrue(s) && ChildEnabled(s, pid, a) && ChildDigest(s, s.children[pid])
    ensures ReadinessTrue(ChildActs(s, pid, a))
  {
  }

  lemma ChildKeepsChildDigests(s: State, pid: Pid, a: ChildAction)
    requires Linked(s) && Numbered(s) && ReadinessTrue(s) && ChildDigests(s) && ChildEnabled(s, pid, a)
    ensures ChildDigests(ChildActs(s, pid, a))
  {
    assert ChildLinked(s, pid, s.children[pid]);
    assert ChildDigest(s, s.children[pid]);
    var t := ChildActs(s, pid, a);
    forall q | q in t.children && q != pid ensures ChildDigest(t, t.children[q]) {
      OthersKeepDigest(s, pid, a, q);
    }
  }

  lemma OthersKeepDigest(s: State, pid: Pid, a: ChildAction, q: Pid)
    requires Numbered(s) && ChildEnabled(s, pid, a) && q in s.children && q != pid && ChildDigest(s, s.children[q])
    ensures q in ChildActs(s, pid, a).children && ChildDigest(ChildActs(s, pid, a), s.children[q])
    ensures ChildActs(s, pid, a).children[q] == s.children[q]
  {
  }

  lemma ChildKeepsTraced(s: State, pid: Pid, a: ChildAction)
    requires Traced(s) && ChildEnabled(s, pid, a)
    ensures Traced(ChildActs(s, pid, a))
  {
    ChildKeepsLinked(s, pid, a);
    ChildKeepsNumbered(s, pid, a);
    assert ChildDigest(s, s.children[pid]);
    ChildKeepsDated(s, pid, a);
    ChildKeepsReadinessTrue(s, pid, a);
    ChildKeepsChildDigests(s, pid, a);
  }

  lemma {:induction false} TracedAlways(s: State, actions: seq<Action>, t: State)
    requires Traced(s) && Reaches(s, actions, t)
    ensures Traced(t)
    decreases |actions|
  {
    if actions != [] {
      match actions[0] {
        case Recovering(r) => RecoveryKeepsTraced(s, r);
        case Handshaking(h) => HandshakeKeepsTraced(s, h);
        case Stopping(x) => StopKeepsTraced(s, x);
        case ByChild(pid, c) => ChildKeepsTraced(s, pid, c);
      }
      TracedAlways(Do(s, actions[0]), actions[1..], t);
    }
  }

  // ---------------------------------------------------------------- what a leftover lock means

  /** No operator at work, no launched process left, and a lock that nobody released. */
  predicate Leftover(s: State) {
    s.operator.Idle? && s.children == map[] && s.lock.Some?
  }

  predicate Attempted(s: State, id: LaunchId) { exists p :: p in s.pendings && p.id == id }

  predicate ReadyDurable(s: State, id: LaunchId) { exists r :: r in s.readinesses && r.id == id }

  /** The database still is what this attempt's custody commit made of it. */
  predicate HoldsCommit(s: State, id: LaunchId) { id in s.commits && s.db == s.commits[id] }

  /** Nobody else has changed the database since an attempt that never committed read it. */
  predicate Undisturbed(s: State, id: LaunchId) {
    id !in s.commits ==> forall p :: p in s.pendings && p.id == id ==> p.dbBefore == s.db
  }

  predicate UnresolvedIsTrue(s: State, v: Verdict, id: LaunchId) {
    v.PendingUnresolved? <==> !Attempted(s, id)
  }

  predicate SealedIsTrue(s: State, v: Verdict, id: LaunchId) {
    v.SealedPostimage? <==> ReadyDurable(s, id) && HoldsCommit(s, id)
  }

  predicate RetryIsTrue(s: State, v: Verdict, id: LaunchId) {
    v.PreimageRetry? <==> Attempted(s, id) && id !in s.commits
  }

  predicate ExceptionalIsTrue(s: State, v: Verdict, id: LaunchId) {
    v.Exceptional? <==> Attempted(s, id) && id in s.commits && !(ReadyDurable(s, id) && HoldsCommit(s, id))
  }

  /** Crash recovery, classification over all runs: the verdict read from receipts and bytes alone is
      one of four, `unresolved` and `sealed postimage` are always the true story of the attempt,
      `preimage retry` is never given to an attempt that committed, and the verdict as a whole
      is true exactly when an attempt that never committed still finds its preimage. */
  lemma VerdictIsTrueExactlyWhen(s: State, actions: seq<Action>, t: State)
    requires Initial(s) && Reaches(s, actions, t) && Leftover(t)
    ensures var id := t.lock.value; var v := VerdictOf(t);
      && !v.ChildLive? && UnresolvedIsTrue(t, v, id) && SealedIsTrue(t, v, id)
      && (v.PreimageRetry? ==> Attempted(t, id) && id !in t.commits)
      && (RetryIsTrue(t, v, id) && ExceptionalIsTrue(t, v, id) <==> Undisturbed(t, id))
  {
    TracedAlways(s, actions, t);
    Classified(t);
  }

  lemma Classified(t: State)
    requires Traced(t) && Leftover(t)
    ensures var id := t.lock.value; var v := VerdictOf(t);
      && !v.ChildLive? && UnresolvedIsTrue(t, v, id) && SealedIsTrue(t, v, id)
      && (v.PreimageRetry? ==> Attempted(t, id) && id !in t.commits)
      && (RetryIsTrue(t, v, id) && ExceptionalIsTrue(t, v, id) <==> Undisturbed(t, id))
  {
    var id := t.lock.value;
    if p :| p in t.pendings && p.id == id {
      assert PendingsOf(t, id) == {p};
      TheSole(PendingsOf(t, id), p);
      var rs := ReadinessOf(t, p);
      if r :| r in t.readinesses && r.id == id {
        assert r in rs;
        assert rs == {r};
        TheSole(rs, r);
      } else {
        assert rs == {};
      }
    } else {
      assert PendingsOf(t, id) == {};
      assert forall r :: r in t.readinesses ==> r.pending.of in t.pendings;
    }
  }
}
