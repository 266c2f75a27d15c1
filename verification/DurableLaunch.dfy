/** Durable launch, recovery and stop as a step system (agent/cli.py).

    One operator command (a launch or a stop) runs at a time; any number of launched children run beside
    it.  Every step may be the last of the process that takes it.  Receipts live in
    content-addressed files that are never replaced, so a directory is a set of receipts. */
module DurableLaunch {
  import opened Common

  type LaunchId = nat
  type Pid = nat

  datatype Pending = Pending(id: LaunchId, dbBefore: nat)
  datatype PendingSha = PendingSha(of: Pending)

  datatype Readiness = Readiness(
    id: LaunchId, pid: Pid, pending: PendingSha, dbBefore: nat, dbAfter: nat)
  datatype ReadinessSha = ReadinessSha(of: Readiness)

  datatype Launch = Launch(
    id: LaunchId, pid: Pid, pending: PendingSha, readiness: ReadinessSha, dbBefore: nat, dbAfter: nat)
  datatype LaunchSha = LaunchSha(of: Launch)

  datatype Challenge = Challenge(launch: LaunchSha, nonce: nat)
  datatype ChallengeSha = ChallengeSha(of: Challenge)

  datatype Exit = Exit(launch: LaunchSha, pid: Pid, challenge: Option<ChallengeSha>)
  datatype ExitSha = ExitSha(of: Exit)

  datatype Stop = Stop(launch: LaunchSha, challenge: ChallengeSha, exit: ExitSha, dbAfter: nat)

  /** The abnormal receipts: one kind seals a dead generation, two kinds recover a lock. */
  datatype Seal =
    | ChildAbsent(launch: LaunchSha, dbNow: nat)
    | PreimageRetryable(pending: PendingSha, dbNow: nat)
    | PostimageChildAbsent(pending: PendingSha, readiness: ReadinessSha, dbNow: nat)

  datatype ChildStep =
    | Booting
    | Committed(before: nat, after: nat)
    | Ready(readiness: Readiness)
    | Serving(launch: Launch, own: Readiness)

  /** A launched process, holding the pending receipt it was started with. */
  datatype Child = Child(pending: Pending, step: ChildStep)

  /** What a launch remembers of its scan: the generations found dead, the preimage digest and the
      abnormal receipts there were. */
  datatype Scan = Scan(dead: set<Launch>, preimage: nat, seals: set<Seal>)

  datatype Operator =
    | Idle
    | PreimageRead(preimage: nat)
    | DeadRead(scan: Scan, unsealed: set<Launch>)
    | BytesMatched(scan: Scan, unsealed: set<Launch>)
    | Waiting(scan: Scan, unsealed: set<Launch>, live: Launch)
    | Scanned(scan: Scan, unsealed: set<Launch>)
    | GenerationsSealed(scan: Scan)
    | LockSealed(scan: Scan)
    | LockClear(scan: Scan)
    | Locked(scan: Scan, id: LaunchId)
    | PendingDurable(scan: Scan, pending: Pending)
    | Forked(scan: Scan, pending: Pending, pid: Pid)
    | ReadinessRead(scan: Scan, pending: Pending, pid: Pid, readiness: Readiness)
    | LaunchDurable(scan: Scan, launch: Launch)
    | ReleaseSent(scan: Scan, launch: Launch)
    | StopSelected(launch: Launch)
    | TermSent(launch: Launch, challenge: Challenge, exitsBefore: set<Exit>)

  /** Directories, lock, database digest, live processes and release pipes; then history that no
      process reads: what each launch id committed, and which ids ever served. */
  datatype State = State(
    pendings: set<Pending>, readinesses: set<Readiness>, launches: set<Launch>,
    challenges: set<Challenge>, exits: set<Exit>, stops: set<Stop>, seals: set<Seal>,
    lock: Option<LaunchId>, db: nat, children: map<Pid, Child>, released: set<Launch>,
    operator: Operator, nextId: LaunchId, nextPid: Pid, nextDb: nat, nextNonce: nat,
    commits: map<LaunchId, nat>, served: set<LaunchId>)

  // ---------------------------------------------------------------- reading the directories

  predicate Alive(s: State, l: Launch) { l.pid in s.children }

  /** Some process is bound to the reserved port. */
  predicate Listening(s: State) {
    exists pid :: pid in s.children && s.children[pid].step.Serving?
  }

  predicate ChainLinked(s: State, l: Launch) {
    && l.pending.of in s.pendings && l.readiness.of in s.readinesses
    && l.pending.of.id == l.id && l.readiness.of.id == l.id
    && l.readiness.of.pending == l.pending
    && l.readiness.of.pid == l.pid && l.readiness.of.dbAfter == l.dbAfter
  }

  function StopsOf(s: State, l: Launch): set<Stop> {
    set stop | stop in s.stops && stop.launch.of == l
  }

  function SealsOf(s: State, l: Launch): set<Seal> {
    set seal | seal in s.seals && seal.ChildAbsent? && seal.launch.of == l
  }

  /** A stop receipt whose exit receipt answers the same challenge for the same launch. */
  predicate StopProven(s: State, stop: Stop) {
    && stop.exit.of in s.exits
    && stop.exit.of.launch == stop.launch && stop.exit.of.challenge == Some(stop.challenge)
  }

  predicate StoppedFor(s: State, l: Launch) {
    |StopsOf(s, l)| == 1 && forall stop :: stop in StopsOf(s, l) ==> StopProven(s, stop)
  }

  /** A dead generation the scan can classify. */
  predicate Classifiable(s: State, l: Launch) {
    && |StopsOf(s, l)| <= 1 && |SealsOf(s, l)| <= 1
    && (StopsOf(s, l) != {} ==> StoppedFor(s, l))
  }

  predicate Terminal(s: State, l: Launch) {
    StoppedFor(s, l) || |SealsOf(s, l)| == 1
  }

  function Dead(s: State): set<Launch> {
    set l | l in s.launches && !Alive(s, l)
  }

  function DeadUnsealed(s: State): set<Launch> {
    set l | l in Dead(s) && !Terminal(s, l)
  }

  function LiveGenerations(s: State): set<Launch> {
    s.launches - Dead(s)
  }

  /** The generation whose receipts account for the bytes the database has now. */
  predicate AccountsFor(s: State, l: Launch) {
    || l.dbAfter == s.db
    || (&& StoppedFor(s, l)
        && forall stop :: stop in StopsOf(s, l) ==> stop.challenge.of in s.challenges && stop.dbAfter == s.db)
  }

  function Accounting(s: State): set<Launch> {
    set l | l in s.launches && AccountsFor(s, l)
  }

  /** Every completed generation has its receipts, and every dead one can be classified. */
  predicate Classifies(s: State) {
    && (forall l :: l in s.launches ==> ChainLinked(s, l))
    && (forall l :: l in Dead(s) ==> Classifiable(s, l))
  }

  predicate OneAccounts(s: State) {
    s.launches == {} || |Accounting(s)| == 1
  }

  /** All gates of the generation scan, when nothing changes while it reads. */
  predicate ScanPasses(s: State) {
    Classifies(s) && OneAccounts(s) && |DeadUnsealed(s)| <= 1 && |LiveGenerations(s)| <= 1
  }

  // ---------------------------------------------------------------- what a leftover lock means

  function PendingsOf(s: State, id: LaunchId): set<Pending> {
    set p | p in s.pendings && p.id == id
  }

  function ReadinessOf(s: State, p: Pending): set<Readiness> {
    set r | r in s.readinesses && r.pending.of == p
  }

  datatype Verdict =
    | PendingUnresolved | ChildLive | PreimageRetry(pending: Pending)
    | SealedPostimage(pending: Pending, readiness: Readiness) | Exceptional(pending: Pending)

  /** How a launch reads a leftover lock. */
  ghost function VerdictOf(s: State): Verdict
    requires s.lock.Some?
  {
    if |PendingsOf(s, s.lock.value)| != 1 then PendingUnresolved
    else
      var p := Sole(PendingsOf(s, s.lock.value));
      var rs := ReadinessOf(s, p);
      if Listening(s) || exists r :: r in rs && r.pid in s.children then ChildLive
      else if s.db == p.dbBefore && rs == {} then PreimageRetry(p)
      else if |rs| == 1 && s.db == Sole(rs).dbAfter then SealedPostimage(p, Sole(rs))
      else Exceptional(p)
  }

  function RecoverySeal(v: Verdict, db: nat): Seal
    requires v.PreimageRetry? || v.SealedPostimage?
  {
    if v.PreimageRetry? then PreimageRetryable(PendingSha(v.pending), db)
    else PostimageChildAbsent(PendingSha(v.pending), ReadinessSha(v.readiness), db)
  }

  /** Recovery goes on only in the two ordinary cases, and only if its seal is a new file. */
  ghost predicate Recoverable(s: State) {
    && s.lock.Some?
    && (VerdictOf(s).PreimageRetry? || VerdictOf(s).SealedPostimage?)
    && RecoverySeal(VerdictOf(s), s.db) !in s.seals
  }

  // ---------------------------------------------------------------- steps

  /** The scan reads the preimage digest, then processes and receipts, then the digest again, then the
      processes again; children may act in between. */
  datatype RecoveryAction =
    | ReadPreimage | ReadDead | MatchBytes | FindLive
    | WaitedOut | SealDead | NothingToSeal | SealLock | Unlock | NoLock

  datatype HandshakeAction =
    | TakeLock | WritePending | Fork | ReadReadiness(message: Readiness) | WriteLaunch | SendRelease | Finish

  datatype StopAction = SelectForStop(target: Launch) | SendTerm | WriteStop(seen: Exit) | OperatorDies

  datatype ChildAction =
    | Commits | Readies | Accepts(release: Launch) | Writes | Exits | Dies

  datatype Action =
    | Recovering(r: RecoveryAction) | Handshaking(h: HandshakeAction) | Stopping(t: StopAction)
    | ByChild(pid: Pid, c: ChildAction)

  /** The parent's checks on a readiness message, whatever the message says. */
  predicate ReadinessMatches(s: State, r: Readiness, op: Operator)
    requires op.Forked?
  {
    && r in s.readinesses && r.pending.of == op.pending && r.id == op.pending.id && r.pid == op.pid
    && r.dbBefore == op.scan.preimage && !Listening(s)
  }

  /** The child's checks on a launch receipt its parent released. */
  predicate ReleaseMatches(s: State, l: Launch, pid: Pid, c: Child) {
    && c.step.Ready? && l in s.launches && l in s.released
    && l.id == c.pending.id && l.readiness.of == c.step.readiness && l.pid == pid
  }

  function ChallengesOf(s: State, l: Launch): set<Challenge> {
    set c | c in s.challenges && c.launch.of == l
  }

  ghost function SoleChallenge(s: State, l: Launch): Option<ChallengeSha> {
    if |ChallengesOf(s, l)| == 1 then Some(ChallengeSha(Sole(ChallengesOf(s, l)))) else None
  }

  ghost predicate RecoveryEnabled(s: State, a: RecoveryAction) {
    var op := s.operator;
    match a
    case ReadPreimage => op.Idle?
    case ReadDead => op.PreimageRead? && Classifies(s)
    case MatchBytes => op.DeadRead? && OneAccounts(s) && |op.unsealed| <= 1
    case FindLive => op.BytesMatched? && |LiveGenerations(s)| <= 1
    case WaitedOut => op.Waiting? && !Alive(s, op.live)
    case SealDead => op.Scanned? && op.unsealed != {} && !Listening(s)
    case NothingToSeal => op.Scanned? && op.unsealed == {} && !Listening(s)
    case SealLock => op.GenerationsSealed? && Recoverable(s)
    case Unlock => op.LockSealed?
    case NoLock => op.GenerationsSealed? && s.lock.None?
  }

  predicate HandshakeEnabled(s: State, a: HandshakeAction) {
    var op := s.operator;
    match a
    case TakeLock => op.LockClear? && s.lock.None? && !Listening(s)
    case WritePending => op.Locked?
    case Fork => op.PendingDurable?
    case ReadReadiness(r) => op.Forked? && ReadinessMatches(s, r, op)
    case WriteLaunch => op.ReadinessRead?
    case SendRelease => op.LaunchDurable?
    case Finish => op.ReleaseSent? && Serves(s, op.launch.pid)
  }

  predicate Serves(s: State, pid: Pid) {
    pid in s.children && s.children[pid].step.Serving?
  }

  predicate StopEnabled(s: State, a: StopAction) {
    var op := s.operator;
    match a
    case SelectForStop(l) =>
      && op.Idle? && l in s.launches && ChainLinked(s, l) && Serves(s, l.pid)
      && (forall c :: c in s.challenges ==> c.launch.of != l)
      && (forall e :: e in s.exits ==> e.launch.of != l)
      && (forall stop :: stop in s.stops ==> stop.launch.of != l)
    case SendTerm => op.StopSelected? && Serves(s, op.launch.pid)
    case WriteStop(e) =>
      && op.TermSent? && !Alive(s, op.launch) && !Listening(s)
      && s.exits - op.exitsBefore == {e}
      && e.pid == op.launch.pid && e.launch.of == op.launch && e.challenge == Some(ChallengeSha(op.challenge))
    case OperatorDies => true
  }

  predicate ChildEnabled(s: State, pid: Pid, a: ChildAction) {
    && pid in s.children
    && var c := s.children[pid];
       match a
       case Commits => c.step.Booting?
       case Readies => c.step.Committed?
       case Accepts(l) => ReleaseMatches(s, l, pid, c)
       case Writes => c.step.Serving?
       case Exits => c.step.Serving?
       case Dies => true
  }

  function WithStep(s: State, pid: Pid, step: ChildStep): map<Pid, Child>
    requires pid in s.children
  {
    s.children[pid := s.children[pid].(step := step)]
  }

  ghost function Recover(s: State, a: RecoveryAction): State
    requires RecoveryEnabled(s, a)
  {
    var op := s.operator;
    match a
    case ReadPreimage => s.(operator := PreimageRead(s.db))
    case ReadDead => s.(operator := DeadRead(Scan(Dead(s), op.preimage, s.seals), DeadUnsealed(s)))
    case MatchBytes => s.(operator := BytesMatched(op.scan, op.unsealed))
    case FindLive =>
      if LiveGenerations(s) == {} then s.(operator := Scanned(op.scan, op.unsealed))
      else
        var live := Sole(LiveGenerations(s));
        // A live generation that already serves ends the launch: already running.
        s.(operator := if Serves(s, live.pid) then Idle else Waiting(op.scan, op.unsealed, live))
    case WaitedOut => s.(operator := Scanned(op.scan, op.unsealed))
    case SealDead =>
      s.(seals := s.seals + set l | l in op.unsealed :: ChildAbsent(LaunchSha(l), s.db),
         operator := GenerationsSealed(op.scan))
    case NothingToSeal => s.(operator := GenerationsSealed(op.scan))
    case SealLock => s.(seals := s.seals + {RecoverySeal(VerdictOf(s), s.db)}, operator := LockSealed(op.scan))
    case Unlock => s.(lock := None, operator := LockClear(op.scan))
    case NoLock => s.(operator := LockClear(op.scan))
  }

  function Handshake(s: State, a: HandshakeAction): State
    requires HandshakeEnabled(s, a)
  {
    var op := s.operator;
    match a
    case TakeLock =>
      s.(lock := Some(s.nextId), nextId := s.nextId + 1, operator := Locked(op.scan, s.nextId))
    case WritePending =>
      var p := Pending(op.id, op.scan.preimage);
      s.(pendings := s.pendings + {p}, operator := PendingDurable(op.scan, p))
    case Fork =>
      s.(children := s.children[s.nextPid := Child(op.pending, Booting)], nextPid := s.nextPid + 1,
         operator := Forked(op.scan, op.pending, s.nextPid))
    case ReadReadiness(r) => s.(operator := ReadinessRead(op.scan, op.pending, op.pid, r))
    case WriteLaunch =>
      var l := LaunchFor(op.pending, op.pid, op.readiness);
      s.(launches := s.launches + {l}, operator := LaunchDurable(op.scan, l))
    case SendRelease =>
      s.(released := s.released + {op.launch}, operator := ReleaseSent(op.scan, op.launch))
    case Finish => s.(lock := None, operator := Idle)
  }

  function LaunchFor(p: Pending, pid: Pid, r: Readiness): Launch {
    Launch(p.id, pid, PendingSha(p), ReadinessSha(r), r.dbBefore, r.dbAfter)
  }

  function StopStep(s: State, a: StopAction): State
    requires StopEnabled(s, a)
  {
    var op := s.operator;
    match a
    case SelectForStop(l) => s.(operator := StopSelected(l))
    case SendTerm =>
      var c := Challenge(LaunchSha(op.launch), s.nextNonce);
      s.(challenges := s.challenges + {c}, nextNonce := s.nextNonce + 1,
         operator := TermSent(op.launch, c, s.exits))
    case WriteStop(e) =>
      var stop := Stop(LaunchSha(op.launch), ChallengeSha(op.challenge), ExitSha(e), s.db);
      s.(stops := s.stops + {stop}, operator := Idle)
    case OperatorDies => s.(operator := Idle)
  }

  ghost function ChildActs(s: State, pid: Pid, a: ChildAction): State
    requires ChildEnabled(s, pid, a)
  {
    var c := s.children[pid];
    match a
    case Commits =>
      s.(db := s.nextDb, nextDb := s.nextDb + 1, commits := s.commits[c.pending.id := s.nextDb],
         children := WithStep(s, pid, Committed(s.db, s.nextDb)))
    case Readies =>
      var r := Readiness(c.pending.id, pid, PendingSha(c.pending), c.step.before, c.step.after);
      s.(readinesses := s.readinesses + {r}, children := WithStep(s, pid, Ready(r)))
    case Accepts(l) =>
      s.(children := WithStep(s, pid, Serving(l, c.step.readiness)), served := s.served + {l.id})
    case Writes => s.(db := s.nextDb, nextDb := s.nextDb + 1)
    case Exits =>
      var l := c.step.launch;
      s.(exits := s.exits + {Exit(LaunchSha(l), pid, SoleChallenge(s, l))}, children := s.children - {pid})
    case Dies => s.(children := s.children - {pid})
  }

  ghost predicate Enabled(s: State, a: Action) {
    match a
    case Recovering(r) => RecoveryEnabled(s, r)
    case Handshaking(h) => HandshakeEnabled(s, h)
    case Stopping(t) => StopEnabled(s, t)
    case ByChild(pid, c) => ChildEnabled(s, pid, c)
  }

  ghost function Do(s: State, a: Action): State
    requires Enabled(s, a)
  {
    match a
    case Recovering(r) => Recover(s, r)
    case Handshaking(h) => Handshake(s, h)
    case Stopping(t) => StopStep(s, t)
    case ByChild(pid, c) => ChildActs(s, pid, c)
  }

  predicate Initial(s: State) {
    && s.pendings == {} && s.readinesses == {} && s.launches == {} && s.challenges == {}
    && s.exits == {} && s.stops == {} && s.seals == {}
    && s.lock.None? && s.children == map[] && s.released == {} && s.operator.Idle?
    && s.commits == map[] && s.served == {} && s.db < s.nextDb
  }

  ghost predicate Reaches(s: State, actions: seq<Action>, t: State)
    decreases |actions|
  {
    if actions == [] then s == t
    else Enabled(s, actions[0]) && Reaches(Do(s, actions[0]), actions[1..], t)
  }
}
