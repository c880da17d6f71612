// The durable job protocol as a state machine. Each database transaction, Lua
// script and stream command is one atomic step; between them every worker,
// dispatcher and reaper keeps a program counter, and may stop for good.
module Protocol {
  import opened Base
  import opened Rows
  import opened Submissions
  import opened JudgeStore
  import opened JudgeResult
  import opened Stream
  import Leases
  import MatchEnd
  import MatchCreation
  import Dispatch

  datatype Config = Config(
    maxAttempts: nat, attemptLease: nat, streamMinIdle: nat, staleAfter: nat,
    dispatchBatch: nat, reaperBatch: nat, matchDuration: nat)

  /** The inequalities the loaded configuration is validated for. */
  predicate ValidConfig(cfg: Config) {
    && cfg.maxAttempts > 0 && cfg.attemptLease > 0 && cfg.staleAfter > 0
    && cfg.dispatchBatch > 0 && cfg.reaperBatch > 0 && cfg.matchDuration > 0
    && cfg.streamMinIdle > cfg.attemptLease
  }

  /** Where `processJob` stands. */
  datatype WorkerPc =
    | Idle
    | Received(entry: nat, job: Job)
    | Executing(entry: nat, claimed: Claimed)
    | Publishing(entry: nat, record: Record, next: nat, failed: bool)
    | Discarding(entry: nat)

  /** Where `handleReclaimedJob` stands. */
  datatype ReaperPc =
    | Free
    | Checking(entry: nat, job: Job)
    | Replacing(entry: nat, sub: Uuid)
    | Remarking(entry: nat, sub: Uuid)
    | Removing(entry: nat)

  /** Where `Dispatch` stands: after XADD the row is still to be marked. */
  datatype DispatcherPc = Ready | Enqueued(sub: Uuid)

  /** Lifecycle transitions of submissions, in the order they commit. */
  datatype Life =
    | Started(sub: Uuid, token: Uuid)
    | Reset(sub: Uuid)
    | Poisoned(sub: Uuid)
    | Ended(sub: Uuid, token: Uuid)

  datatype State = State(
    db: Db, stream: Stream, clock: nat,
    workers: map<nat, WorkerPc>, dispatchers: map<nat, DispatcherPc>, reapers: map<nat, ReaperPc>,
    // history
    jobs: map<nat, Job>,                 // every entry ever added
    tokens: set<Uuid>,                   // every attempt token ever drawn
    returned: map<Uuid, Record>,         // what Complete returned
    events: set<Event>,                  // every event that reached its channel
    log: seq<Life>,
    accepted: seq<(Request, Uuid)>)      // successful Accept calls

  /** Steps of one judge worker. */
  datatype WorkerAction =
    | Read
    | Claim(token: Uuid)
    | Finish(result: Terminal)
    | Publish(delivered: bool, ok: bool)
    | Ack
    | Crash

  /** Steps of one reaper thread sweeping the stream. */
  datatype SweepAction =
    | Sweep(entry: nat)
    | Check
    | Replace
    | Remark
    | Remove
    | Abandon

  /** Steps that only write tables. */
  datatype TableAction =
    | Register(user: Uuid)
    | OpenMatch(a: Uuid, b: Uuid, id: Uuid)
    | Submit(request: Request, id: Uuid, sampled: nat)
    | Reclaim(sub: Uuid)
    | Settle(game: Uuid)

  datatype Action =
    | Tick(delta: nat)
    | Table(what: TableAction)
    | Enqueue(d: nat, sub: Uuid)
    | Mark(d: nat)
    | Work(w: nat, does: WorkerAction)
    | Reap(r: nat, step: SweepAction)

  function WorkerAt(st: State, w: nat): WorkerPc {
    if w in st.workers then st.workers[w] else Idle
  }

  function ReaperAt(st: State, r: nat): ReaperPc {
    if r in st.reapers then st.reapers[r] else Free
  }

  function DispatcherAt(st: State, d: nat): DispatcherPc {
    if d in st.dispatchers then st.dispatchers[d] else Ready
  }

  function GoWorker(st: State, w: nat, pc: WorkerPc): State {
    st.(workers := st.workers[w := pc])
  }

  function GoReaper(st: State, r: nat, pc: ReaperPc): State {
    st.(reapers := st.reapers[r := pc])
  }

  function AddJob(st: State, sub: Uuid): State {
    st.(jobs := st.jobs[st.stream.next := JobFor(sub)], stream := Add(st.stream, JobFor(sub)))
  }

  ghost predicate Init(st: State) {
    && st.db == Db(st.db.users, st.db.problems, map[], map[], map[]) && NIL !in st.db.users
    && st.stream == EmptyStream
    && st.workers == map[] && st.dispatchers == map[] && st.reapers == map[]
    && st.jobs == map[] && st.tokens == {} && st.returned == map[] && st.events == {}
    && st.log == [] && st.accepted == []
  }

  // ------------------------------------------------------------- front end steps

  function OpenMatchStep(cfg: Config, st: State, a: Uuid, b: Uuid, id: Uuid): Option<State> {
    if id == NIL || id in st.db.matches then None
    else Some(st.(db := MatchCreation.CreateTx(st.db, a, b, cfg.matchDuration, st.clock, id).0))
  }

  /** The time is read before the row locks are waited for, so it may be past. */
  ghost function SubmitStep(st: State, r: Request, id: Uuid, sampled: nat): Option<State> {
    if id == NIL || id in st.db.subs || sampled > st.clock then None
    else
      var (db, res) := AcceptTx(st.db, r, sampled, id);
      Some(st.(db := db, accepted := if res.Accepted? then st.accepted + [(r, res.id)] else st.accepted))
  }

  function EnqueueStep(st: State, d: nat, sub: Uuid): Option<State> {
    if DispatcherAt(st, d).Ready? && sub in st.db.subs then
      Some(AddJob(st, sub).(dispatchers := st.dispatchers[d := Enqueued(sub)]))
    else None
  }

  function MarkStep(st: State, d: nat): Option<State> {
    match DispatcherAt(st, d)
    case Enqueued(sub) =>
      Some(st.(db := Dispatch.MarkTx(st.db, sub, st.clock), dispatchers := st.dispatchers[d := Ready]))
    case Ready => None
  }

  // ----------------------------------------------------------------- judge steps

  function ReadStep(st: State, w: nat): Option<State> {
    if WorkerAt(st, w).Idle? && st.stream.undelivered != [] && st.stream.undelivered[0] in st.stream.entries then
      var e := st.stream.undelivered[0];
      Some(GoWorker(st, w, Received(e, st.stream.entries[e]))
           .(stream := Deliver(st.stream, JudgeConsumer(w), st.clock)))
    else None
  }

  /** The record is announced only if its events build. */
  function Announcing(entry: nat, r: Record): WorkerPc {
    if Announceable(r) then Publishing(entry, r, 0, false) else Idle
  }

  function AfterClaim(entry: nat, res: ClaimResult): WorkerPc {
    match res
    case Acquired(c) => Executing(entry, c)
    case AlreadyCompleted(r) => Announcing(entry, r)
    case LiveAttempt(_) => Discarding(entry)
    case MissingSubmission => Discarding(entry)
    case ExpiredAttempt => Idle
    case ClaimError => Idle
  }

  function ClaimStep(cfg: Config, st: State, w: nat, token: Uuid): Option<State> {
    match WorkerAt(st, w)
    case Received(e, job) =>
      if job.Malformed? then Some(GoWorker(st, w, Discarding(e)))
      else if token == NIL || token in st.tokens then None
      else
        var (db, res) := ClaimTx(st.db, job.sub, token, cfg.attemptLease, st.clock);
        var log := if res.Acquired? then st.log + [Started(job.sub, token)] else st.log;
        Some(GoWorker(st, w, AfterClaim(e, res)).(db := db, tokens := st.tokens + {token}, log := log))
    case _ => None
  }

  function AfterFinish(entry: nat, res: CompleteResult): WorkerPc {
    if res.Applied? then Announcing(entry, res.record) else Idle
  }

  function FinishStep(st: State, w: nat, result: Terminal): Option<State> {
    match WorkerAt(st, w)
    case Executing(e, c) =>
      if !ValidTerminal(result, c.tests) then None
      else
        var (db, res) := CompleteTx(st.db, c, result, st.clock);
        var returned := if res.Applied? then st.returned[c.sub := res.record] else st.returned;
        var log := if res.Applied? then st.log + [Ended(c.sub, c.token)] else st.log;
        Some(GoWorker(st, w, AfterFinish(e, res)).(db := db, returned := returned, log := log))
    case _ => None
  }

  /** One publish call. It may fail after delivering, but not succeed without. */
  function PublishStep(st: State, w: nat, delivered: bool, ok: bool): Option<State> {
    match WorkerAt(st, w)
    case Publishing(e, r, next, failed) =>
      if next >= |r.players| || (ok && !delivered) then None
      else
        var events := if delivered then st.events + {EventFor(r, r.players[next])} else st.events;
        var broken := failed || !ok;
        var pc := if next + 1 < |r.players| then Publishing(e, r, next + 1, broken)
                  else if broken then Idle else Discarding(e);
        Some(GoWorker(st, w, pc).(events := events))
    case _ => None
  }

  function AckStep(st: State, w: nat): Option<State> {
    match WorkerAt(st, w)
    case Discarding(e) => Some(GoWorker(st, w, Idle).(stream := FinalizeEntry(st.stream, e).0))
    case _ => None
  }

  // ---------------------------------------------------------------- reaper steps

  function ReclaimStep(cfg: Config, st: State, sub: Uuid): Option<State> {
    if sub in st.db.subs && Leases.Expired(st.db.subs[sub], st.clock) then
      var life := if st.db.subs[sub].attempts < cfg.maxAttempts then Reset(sub) else Poisoned(sub);
      Some(st.(db := Leases.ReclaimRow(st.db, sub, cfg.maxAttempts, st.clock), log := st.log + [life]))
    else None
  }

  function SettleStep(st: State, m: Uuid): Option<State> {
    if m in MatchEnd.DueKeys(st.db, st.clock, {}) then Some(st.(db := MatchEnd.FinalizeTx(st.db, m).0)) else None
  }

  function SweepStep(cfg: Config, st: State, r: nat, e: nat): Option<State> {
    if ReaperAt(st, r).Free? && IdleFor(st.stream, e, cfg.streamMinIdle, st.clock) then
      Some(GoReaper(st, r, Checking(e, st.stream.entries[e]))
           .(stream := Reassign(st.stream, e, ReaperConsumer(r), st.clock)))
    else None
  }

  function CheckStep(st: State, r: nat): Option<State> {
    match ReaperAt(st, r)
    case Checking(e, job) =>
      if job.Malformed? || job.sub !in st.db.subs then Some(GoReaper(st, r, Removing(e)))
      else if st.db.subs[job.sub].status == Running then Some(GoReaper(st, r, Free))
      else Some(GoReaper(st, r, Replacing(e, job.sub)))
    case _ => None
  }

  function ReplaceStep(st: State, r: nat): Option<State> {
    match ReaperAt(st, r)
    case Replacing(e, sub) => Some(GoReaper(AddJob(st, sub), r, Remarking(e, sub)))
    case _ => None
  }

  function RemarkStep(st: State, r: nat): Option<State> {
    match ReaperAt(st, r)
    case Remarking(e, sub) => Some(GoReaper(st, r, Removing(e)).(db := Dispatch.MarkTx(st.db, sub, st.clock)))
    case _ => None
  }

  function RemoveStep(st: State, r: nat): Option<State> {
    match ReaperAt(st, r)
    case Removing(e) => Some(GoReaper(st, r, Free).(stream := FinalizeEntry(st.stream, e).0))
    case _ => None
  }

  // ------------------------------------------------------------------- all steps

  function WorkerStep(cfg: Config, st: State, w: nat, a: WorkerAction): Option<State> {
    match a
    case Read => ReadStep(st, w)
    case Claim(token) => ClaimStep(cfg, st, w, token)
    case Finish(result) => FinishStep(st, w, result)
    case Publish(delivered, ok) => PublishStep(st, w, delivered, ok)
    case Ack => AckStep(st, w)
    case Crash => Some(GoWorker(st, w, Idle))
  }

  function SweeperStep(cfg: Config, st: State, r: nat, a: SweepAction): Option<State> {
    match a
    case Sweep(e) => SweepStep(cfg, st, r, e)
    case Check => CheckStep(st, r)
    case Replace => ReplaceStep(st, r)
    case Remark => RemarkStep(st, r)
    case Remove => RemoveStep(st, r)
    case Abandon => Some(GoReaper(st, r, Free))
  }

  ghost function TableStep(cfg: Config, st: State, a: TableAction): Option<State> {
    match a
    case Register(u) => if u == NIL then None else Some(st.(db := st.db.(users := st.db.users + {u})))
    case OpenMatch(p, q, id) => OpenMatchStep(cfg, st, p, q, id)
    case Submit(r, id, sampled) => SubmitStep(st, r, id, sampled)
    case Reclaim(sub) => ReclaimStep(cfg, st, sub)
    case Settle(m) => SettleStep(st, m)
  }

  /** One step, or `None` when it is not enabled. */
  ghost function Step(cfg: Config, st: State, a: Action): Option<State> {
    match a
    case Tick(delta) => Some(st.(clock := st.clock + delta))
    case Table(t) => TableStep(cfg, st, t)
    case Enqueue(d, sub) => EnqueueStep(st, d, sub)
    case Mark(d) => MarkStep(st, d)
    case Work(w, t) => WorkerStep(cfg, st, w, t)
    case Reap(r, t) => SweeperStep(cfg, st, r, t)
  }

  ghost function Run(cfg: Config, st: State, acts: seq<Action>): Option<State>
    decreases |acts|
  {
    if acts == [] then Some(st)
    else match Step(cfg, st, acts[0])
      case None => None
      case Some(next) => Run(cfg, next, acts[1..])
  }
}
