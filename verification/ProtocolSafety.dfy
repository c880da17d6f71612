// What every step of the protocol keeps: the tables, the stream, the program
// counters, and the history that the run theorems are read off.
module ProtocolSafety {
  import opened Base
  import opened Rows
  import opened Submissions
  import opened JudgeStore
  import opened JudgeResult
  import opened Stream
  import opened Protocol
  import Leases
  import MatchEnd
  import MatchCreation
  import Dispatch

  // ------------------------------------------------------------------ invariants

  ghost predicate JobsInv(st: State) {
    && StreamOk(st.stream)
    && (forall e :: e in st.jobs <==> 0 < e < st.stream.next)
    && (forall e | e in st.stream.entries :: st.stream.entries[e] == st.jobs[e])
  }

  ghost predicate HasJob(st: State, s: Uuid) {
    exists e :: e in st.jobs && st.jobs[e] == JobFor(s)
  }

  ghost predicate WorkerFits(st: State, pc: WorkerPc) {
    match pc
    case Idle => true
    case Received(e, job) => e in st.jobs && st.jobs[e] == job
    case Executing(e, c) => e in st.jobs && st.jobs[e] == JobFor(c.sub) && ClaimFits(st.db, c) && c.token in st.tokens
    case Publishing(e, r, next, failed) =>
      e in st.jobs && st.jobs[e] == JobFor(r.sub) && RecordFits(st.db, r) && Announceable(r) && next < 2
    case Discarding(e) => e in st.jobs
  }

  ghost predicate ReaperFits(st: State, pc: ReaperPc) {
    match pc
    case Free => true
    case Checking(e, job) => e in st.jobs && st.jobs[e] == job
    case Replacing(e, s) => e in st.jobs && st.jobs[e] == JobFor(s) && s in st.db.subs
    case Remarking(e, s) => e in st.jobs && st.jobs[e] == JobFor(s) && s in st.db.subs
    case Removing(e) => e in st.jobs
  }

  ghost predicate PcsInv(st: State) {
    && (forall w | w in st.workers :: WorkerFits(st, st.workers[w]))
    && (forall r | r in st.reapers :: ReaperFits(st, st.reapers[r]))
    && (forall d | d in st.dispatchers && st.dispatchers[d].Enqueued? :: HasJob(st, st.dispatchers[d].sub))
  }

  /** A row is marked as enqueued only after its job entered the stream. */
  ghost predicate MarksInv(st: State) {
    forall s | s in st.db.subs && st.db.subs[s].enqueued.Some? :: HasJob(st, s)
  }

  ghost predicate ResultsInv(st: State) {
    && (forall s | s in st.returned :: st.returned[s].sub == s && RecordFits(st.db, st.returned[s]))
    && (forall e | e in st.events :: RecordFits(st.db, e.record) && e.recipient in e.record.players
                                     && e == EventFor(e.record, e.recipient))
  }

  ghost predicate AcceptedInv(st: State) {
    forall i | 0 <= i < |st.accepted| ::
      var (r, id) := st.accepted[i];
      id in st.db.subs && HasKey(st.db.subs[id], r) && SamePayload(st.db.subs[id], r)
  }

  ghost predicate SafetyInv(cfg: Config, st: State) {
    && DbInv(cfg.maxAttempts, st.db) && JobsInv(st) && PcsInv(st) && MarksInv(st) && ResultsInv(st) && AcceptedInv(st)
  }

  lemma SafetyParts(cfg: Config, st: State)
    requires SafetyInv(cfg, st)
    ensures DbInv(cfg.maxAttempts, st.db) && JobsInv(st) && StreamOk(st.stream) && PcsInv(st)
    ensures MarksInv(st) && ResultsInv(st) && AcceptedInv(st)
  {
    hide DbInv, StreamOk, PcsInv, MarksInv, ResultsInv, AcceptedInv;
  }

  lemma WorkerPcFits(st: State, w: nat)
    requires PcsInv(st) && w in st.workers
    ensures WorkerFits(st, st.workers[w])
  {
    hide WorkerFits, ReaperFits, HasJob;
  }

  // ---------------------------------------------------------------- tables evolve

  lemma RegisterKeeps(max: nat, db: Db, u: Uuid)
    requires DbInv(max, db) && u != NIL
    ensures var db' := db.(users := db.users + {u}); DbInv(max, db') && Evolves(db, db')
  {
    RegisterRows(max, db, u);
    RegisterStandings(db, u);
    hide MatchesOk, SubsOk, StandingsOk;
  }

  lemma RegisterRows(max: nat, db: Db, u: Uuid)
    requires MatchesOk(db) && SubsOk(max, db)
    ensures var db' := db.(users := db.users + {u}); MatchesOk(db') && SubsOk(max, db')
  {
    var db' := db.(users := db.users + {u});
    forall m | m in db'.matches ensures MatchOk(db', db'.matches[m]) { assert MatchOk(db, db.matches[m]); }
    forall s | s in db'.subs ensures SubOk(db', max, db'.subs[s]) { assert SubOk(db, max, db.subs[s]); }
  }

  lemma RegisterStandings(db: Db, u: Uuid)
    requires StandingsOk(db)
    ensures StandingsOk(db.(users := db.users + {u}))
  {
    var db' := db.(users := db.users + {u});
    forall m | m in db'.matches ensures Standing(db', m) {
      assert Standing(db, m);
      StandingFrame(db, db', m);
    }
  }

  lemma StepTables(cfg: Config, st: State, a: Action)
    requires ValidConfig(cfg) && DbInv(cfg.maxAttempts, st.db) && PcsInv(st) && Step(cfg, st, a).Some?
    ensures var st' := Step(cfg, st, a).value; DbInv(cfg.maxAttempts, st'.db) && Evolves(st.db, st'.db)
  {
    var max, db := cfg.maxAttempts, st.db;
    hide DbInv, Evolves, PcsInv, WorkerStep, SweeperStep;
    hide AcceptTx, ClaimTx, CompleteTx, MatchCreation.CreateTx, MatchEnd.FinalizeTx, Dispatch.MarkTx, Leases.ReclaimRow;
    EvolvesReflexive(db);
    match a {
      case Table(Register(u)) => RegisterKeeps(max, db, u);
      case Table(OpenMatch(p, q, id)) => MatchCreation.CreateKeeps(max, db, p, q, cfg.matchDuration, st.clock, id);
      case Table(Submit(r, id, sampled)) => AcceptKeeps(max, db, r, sampled, id);
      case Table(Reclaim(sub)) => Leases.ReclaimRowKeeps(max, db, sub, st.clock);
      case Table(Settle(m)) => MatchEnd.FinalizeKeeps(max, db, m);
      case Mark(d) => Dispatch.MarkKeeps(max, db, st.dispatchers[d].sub, st.clock);
      case Work(w, t) => WorkerTables(cfg, st, w, t);
      case Reap(r, t) => SweeperTables(cfg, st, r, t);
      case _ =>
    }
  }

  lemma WorkerTables(cfg: Config, st: State, w: nat, a: WorkerAction)
    requires ValidConfig(cfg) && DbInv(cfg.maxAttempts, st.db) && PcsInv(st) && WorkerStep(cfg, st, w, a).Some?
    ensures var st' := WorkerStep(cfg, st, w, a).value; DbInv(cfg.maxAttempts, st'.db) && Evolves(st.db, st'.db)
  {
    var max, db := cfg.maxAttempts, st.db;
    hide DbInv, Evolves, PcsInv, ClaimTx, CompleteTx, Deliver, FinalizeEntry, Announcing, EventFor, ClaimFits;
    EvolvesReflexive(db);
    if a.Claim? && st.workers[w].job.JobFor? {
      ClaimKeeps(max, db, st.workers[w].job.sub, a.token, cfg.attemptLease, st.clock);
    }
    if a.Finish? {
      WorkerPcFits(st, w);
      CompleteKeeps(max, db, st.workers[w].claimed, a.result, st.clock);
    }
  }

  lemma SweeperTables(cfg: Config, st: State, r: nat, a: SweepAction)
    requires DbInv(cfg.maxAttempts, st.db) && SweeperStep(cfg, st, r, a).Some?
    ensures var st' := SweeperStep(cfg, st, r, a).value; DbInv(cfg.maxAttempts, st'.db) && Evolves(st.db, st'.db)
  {
    hide DbInv, Evolves, Dispatch.MarkTx, Add, FinalizeEntry, Reassign;
    EvolvesReflexive(st.db);
    if a.Remark? { Dispatch.MarkKeeps(cfg.maxAttempts, st.db, st.reapers[r].sub, st.clock); }
  }

  // ------------------------------------------------------------- stream and pcs

  /** The stream moved forward without losing track of any entry. */
  ghost predicate JobsStep(st: State, st': State) {
    && JobsInv(st')
    && st.stream.next <= st'.stream.next
    && (forall e | e in st.jobs :: e in st'.jobs && st'.jobs[e] == st.jobs[e])
  }

  lemma AddJobKeeps(st: State, s: Uuid, st': State)
    requires JobsInv(st) && st'.stream == Add(st.stream, JobFor(s)) && st'.jobs == st.jobs[st.stream.next := JobFor(s)]
    ensures JobsStep(st, st') && st.stream.next !in st.jobs && HasJob(st', s)
  {
    AddKeeps(st.stream, JobFor(s));
    assert st'.jobs[st.stream.next] == JobFor(s);
  }

  lemma JobsFrame(st: State, st': State)
    requires JobsInv(st) && st'.stream == st.stream && st'.jobs == st.jobs
    ensures JobsStep(st, st')
  {
  }

  lemma DeliveredKeeps(st: State, c: Consumer, st': State)
    requires JobsInv(st) && st.stream.undelivered != []
    requires st'.stream == Deliver(st.stream, c, st.clock) && st'.jobs == st.jobs
    ensures JobsStep(st, st')
  {
  }

  lemma ReassignedKeeps(st: State, e: nat, c: Consumer, st': State)
    requires JobsInv(st) && e in st.stream.pel
    requires st'.stream == Reassign(st.stream, e, c, st.clock) && st'.jobs == st.jobs
    ensures JobsStep(st, st')
  {
  }

  lemma FinalizedKeeps(st: State, e: nat, st': State)
    requires JobsInv(st) && st'.stream == FinalizeEntry(st.stream, e).0 && st'.jobs == st.jobs
    ensures JobsStep(st, st')
  {
  }

  lemma WorkerJobs(cfg: Config, st: State, w: nat, a: WorkerAction)
    requires JobsInv(st) && WorkerStep(cfg, st, w, a).Some?
    ensures JobsStep(st, WorkerStep(cfg, st, w, a).value)
  {
    hide JobsInv, JobsStep, Deliver, FinalizeEntry, ClaimTx, CompleteTx;
    var st' := WorkerStep(cfg, st, w, a).value;
    match a {
      case Read => DeliveredKeeps(st, JudgeConsumer(w), st');
      case Ack => FinalizedKeeps(st, st.workers[w].entry, st');
      case _ => JobsFrame(st, st');
    }
  }

  lemma SweeperJobs(cfg: Config, st: State, r: nat, a: SweepAction)
    requires JobsInv(st) && SweeperStep(cfg, st, r, a).Some?
    ensures JobsStep(st, SweeperStep(cfg, st, r, a).value)
  {
    hide JobsInv, JobsStep, Add, Reassign, FinalizeEntry, Dispatch.MarkTx;
    var st' := SweeperStep(cfg, st, r, a).value;
    match a {
      case Sweep(e) => ReassignedKeeps(st, e, ReaperConsumer(r), st');
      case Replace => AddJobKeeps(st, st.reapers[r].sub, st');
      case Remove => FinalizedKeeps(st, st.reapers[r].entry, st');
      case _ => JobsFrame(st, st');
    }
  }

  lemma StepJobs(cfg: Config, st: State, a: Action)
    requires JobsInv(st) && Step(cfg, st, a).Some?
    ensures JobsStep(st, Step(cfg, st, a).value)
  {
    hide JobsInv, JobsStep, WorkerStep, SweeperStep, Add, Dispatch.MarkTx;
    var st' := Step(cfg, st, a).value;
    match a {
      case Enqueue(d, sub) => AddJobKeeps(st, sub, st');
      case Work(w, t) => WorkerJobs(cfg, st, w, t);
      case Reap(r, t) => SweeperJobs(cfg, st, r, t);
      case _ => JobsFrame(st, st');
    }
  }

  /** What only grows along a run. */
  ghost predicate Later(before: State, after: State) {
    && Evolves(before.db, after.db)
    && before.clock <= after.clock
    && before.tokens <= after.tokens && before.events <= after.events
    && (forall e | e in before.jobs :: e in after.jobs && after.jobs[e] == before.jobs[e])
    && (forall s | s in before.returned :: s in after.returned && after.returned[s] == before.returned[s])
  }

  lemma LaterTransitive(a: State, b: State, c: State)
    requires Later(a, b) && Later(b, c)
    ensures Later(a, c)
  {
    EvolvesTransitive(a.db, b.db, c.db);
  }

  lemma PcsLater(st: State, st': State)
    requires Later(st, st')
    ensures forall pc | WorkerFits(st, pc) :: WorkerFits(st', pc)
    ensures forall pc | ReaperFits(st, pc) :: ReaperFits(st', pc)
    ensures forall s | HasJob(st, s) :: HasJob(st', s)
  {
  }

  lemma ClaimedWorkerFits(cfg: Config, st: State, w: nat, token: Uuid)
    requires ValidConfig(cfg) && DbInv(cfg.maxAttempts, st.db) && PcsInv(st) && ClaimStep(cfg, st, w, token).Some?
    ensures var st' := ClaimStep(cfg, st, w, token).value; WorkerFits(st', st'.workers[w])
  {
    hide ClaimTx, DbInv, RecordFits, ClaimFits, Announceable, PcsInv;
    WorkerPcFits(st, w);
    if st.workers[w].job.JobFor? {
      ClaimResultFits(cfg.maxAttempts, st.db, st.workers[w].job.sub, token, cfg.attemptLease, st.clock);
    }
  }

  lemma ClaimResultFits(max: nat, db: Db, s: Uuid, token: Uuid, lease: nat, now: nat)
    requires DbInv(max, db)
    ensures var (db', res) := ClaimTx(db, s, token, lease, now);
      && (res.Acquired? ==> res.claimed.sub == s && res.claimed.token == token && ClaimFits(db', res.claimed))
      && (res.AlreadyCompleted? ==> res.record.sub == s && RecordFits(db', res.record))
  {
    ClaimMeaning(max, db, s, token, lease, now);
    var (db', res) := ClaimTx(db, s, token, lease, now);
    hide ClaimTx;
    if res.AlreadyCompleted? {
      RebuiltFits(max, db, s, res.record);
    }
  }

  /** The one record `Complete` may return in this step, and what it stands for. */
  lemma FinishedRecordFits(max: nat, db: Db, c: Claimed, result: Terminal, now: nat)
    requires DbInv(max, db) && ClaimFits(db, c) && ValidTerminal(result, c.tests)
    ensures var (db', res) := CompleteTx(db, c, result, now);
      res.Applied? ==> res.record.sub == c.sub && RecordFits(db', res.record) && db.subs[c.sub].status == Running
  {
    CompleteMeaning(max, db, c, result, now);
    CompleteKeeps(max, db, c, result, now);
    var (db', res) := CompleteTx(db, c, result, now);
    hide CompleteTx;
    if res.Applied? {
      RebuiltFits(max, db', c.sub, res.record);
    }
  }

  lemma FinishedWorkerFits(cfg: Config, st: State, w: nat, result: Terminal)
    requires ValidConfig(cfg) && DbInv(cfg.maxAttempts, st.db) && PcsInv(st) && FinishStep(st, w, result).Some?
    ensures var st' := FinishStep(st, w, result).value; WorkerFits(st', st'.workers[w])
  {
    assert WorkerFits(st, st.workers[w]);
    FinishedRecordFits(cfg.maxAttempts, st.db, st.workers[w].claimed, result, st.clock);
    hide CompleteTx, DbInv, RecordFits, ClaimFits, Announceable, PcsInv;
  }

  /** A completion never replaces an earlier record: the row was still running. */
  lemma FinishedIsNew(cfg: Config, st: State, w: nat, result: Terminal)
    requires ValidConfig(cfg) && SafetyInv(cfg, st) && FinishStep(st, w, result).Some?
    ensures forall s | s in st.returned ::
              s in FinishStep(st, w, result).value.returned
              && FinishStep(st, w, result).value.returned[s] == st.returned[s]
  {
    hide SafetyInv, DbInv, JobsInv, PcsInv, MarksInv, ResultsInv, AcceptedInv, CompleteTx, RecordFits, ClaimFits,
      Announceable;
    SafetyParts(cfg, st);
    WorkerPcFits(st, w);
    FinishedRecordFits(cfg.maxAttempts, st.db, st.workers[w].claimed, result, st.clock);
    if st.workers[w].claimed.sub in st.returned { ReturnedIsOver(st, st.workers[w].claimed.sub); }
  }

  lemma ReturnedIsOver(st: State, s: Uuid)
    requires ResultsInv(st) && s in st.returned
    ensures s in st.db.subs && st.db.subs[s].status == Completed
  {
    assert RecordFits(st.db, st.returned[s]);
  }

  lemma WorkerHistory(cfg: Config, st: State, w: nat, a: WorkerAction)
    requires WorkerStep(cfg, st, w, a).Some?
    ensures var st' := WorkerStep(cfg, st, w, a).value;
      && st'.clock == st.clock && st.tokens <= st'.tokens && st.events <= st'.events
      && (!a.Finish? ==> st'.returned == st.returned)
      && st'.accepted == st.accepted
  {
    hide Deliver, FinalizeEntry, ClaimTx, CompleteTx, Announcing, EventFor;
  }

  lemma WorkerMoves(cfg: Config, st: State, w: nat, a: WorkerAction)
    requires WorkerStep(cfg, st, w, a).Some?
    ensures var st' := WorkerStep(cfg, st, w, a).value;
      && st'.reapers == st.reapers && st'.dispatchers == st.dispatchers
      && w in st'.workers && st'.workers == st.workers[w := st'.workers[w]]
  {
    hide Deliver, FinalizeEntry, ClaimTx, CompleteTx, Announcing, EventFor;
  }

  /** Only the stream, the jobs, the tables and reaper `r` differ. */
  ghost predicate SweptOnly(st: State, st': State, r: nat) {
    && st'.clock == st.clock && st'.tokens == st.tokens && st'.events == st.events
    && st'.returned == st.returned && st'.accepted == st.accepted && st'.log == st.log
    && st'.workers == st.workers && st'.dispatchers == st.dispatchers
    && r in st'.reapers && st'.reapers == st.reapers[r := st'.reapers[r]]
  }

  lemma SweepHistory(cfg: Config, st: State, r: nat, e: nat)
    requires SweepStep(cfg, st, r, e).Some?
    ensures SweptOnly(st, SweepStep(cfg, st, r, e).value, r)
  {
    hide Reassign;
  }

  lemma CheckHistory(st: State, r: nat)
    requires CheckStep(st, r).Some?
    ensures SweptOnly(st, CheckStep(st, r).value, r)
  {
    hide SweptOnly, GoReaper;
    var st' := CheckStep(st, r).value;
    assert exists pc :: st' == GoReaper(st, r, pc);
    var pc :| st' == GoReaper(st, r, pc);
    GoReaperHistory(st, r, pc);
  }

  lemma GoReaperHistory(st: State, r: nat, pc: ReaperPc)
    ensures SweptOnly(st, GoReaper(st, r, pc), r)
  {
  }

  lemma ReplaceHistory(st: State, r: nat)
    requires ReplaceStep(st, r).Some?
    ensures SweptOnly(st, ReplaceStep(st, r).value, r)
  {
    hide Add;
  }

  lemma RemarkHistory(st: State, r: nat)
    requires RemarkStep(st, r).Some?
    ensures SweptOnly(st, RemarkStep(st, r).value, r)
  {
    hide Dispatch.MarkTx;
  }

  lemma RemoveHistory(st: State, r: nat)
    requires RemoveStep(st, r).Some?
    ensures SweptOnly(st, RemoveStep(st, r).value, r)
  {
    hide FinalizeEntry;
  }

  lemma SweeperHistory(cfg: Config, st: State, r: nat, a: SweepAction)
    requires SweeperStep(cfg, st, r, a).Some?
    ensures SweptOnly(st, SweeperStep(cfg, st, r, a).value, r)
  {
    hide SweepStep, CheckStep, ReplaceStep, RemarkStep, RemoveStep;
    match a {
      case Sweep(e) => SweepHistory(cfg, st, r, e);
      case Check => CheckHistory(st, r);
      case Replace => ReplaceHistory(st, r);
      case Remark => RemarkHistory(st, r);
      case Remove => RemoveHistory(st, r);
      case Abandon =>
    }
  }

  lemma TableHistory(cfg: Config, st: State, a: TableAction)
    requires TableStep(cfg, st, a).Some?
    ensures var st' := TableStep(cfg, st, a).value;
      && st'.clock == st.clock && st'.tokens == st.tokens && st'.events == st.events && st'.returned == st.returned
      && st'.stream == st.stream && st'.jobs == st.jobs
      && st'.workers == st.workers && st'.dispatchers == st.dispatchers && st'.reapers == st.reapers
  {
  }

  lemma StepLater(cfg: Config, st: State, a: Action)
    requires ValidConfig(cfg) && SafetyInv(cfg, st) && Step(cfg, st, a).Some?
    ensures Later(st, Step(cfg, st, a).value)
  {
    StepTables(cfg, st, a);
    StepJobs(cfg, st, a);
    HistoryGrows(cfg, st, a);
    hide SafetyInv, Evolves, JobsInv, Step;
  }

  /** Clock, tokens, events and returned records only grow. */
  lemma HistoryGrows(cfg: Config, st: State, a: Action)
    requires ValidConfig(cfg) && SafetyInv(cfg, st) && Step(cfg, st, a).Some?
    ensures var st' := Step(cfg, st, a).value;
      && st.clock <= st'.clock && st.tokens <= st'.tokens && st.events <= st'.events
      && (forall s | s in st.returned :: s in st'.returned && st'.returned[s] == st.returned[s])
  {
    hide SafetyInv, WorkerStep, SweeperStep, TableStep, Add, Dispatch.MarkTx;
    match a {
      case Work(w, t) =>
        WorkerHistory(cfg, st, w, t);
        if t.Finish? { FinishLater(cfg, st, w, t.result); }
      case Reap(r, t) => SweeperHistory(cfg, st, r, t);
      case Table(t) => TableHistory(cfg, st, t);
      case _ =>
    }
  }

  lemma FinishLater(cfg: Config, st: State, w: nat, result: Terminal)
    requires ValidConfig(cfg) && SafetyInv(cfg, st) && WorkerStep(cfg, st, w, Finish(result)).Some?
    ensures forall s | s in st.returned ::
              s in WorkerStep(cfg, st, w, Finish(result)).value.returned
              && WorkerStep(cfg, st, w, Finish(result)).value.returned[s] == st.returned[s]
  {
    FinishedIsNew(cfg, st, w, result);
  }

  /** New program counters fit when only one of them changed and it fits. */
  lemma WorkerPcs(cfg: Config, st: State, w: nat, a: WorkerAction)
    requires ValidConfig(cfg) && SafetyInv(cfg, st) && WorkerStep(cfg, st, w, a).Some?
    requires Later(st, WorkerStep(cfg, st, w, a).value)
    ensures PcsInv(WorkerStep(cfg, st, w, a).value)
  {
    hide SafetyInv, DbInv, JobsInv, StreamOk, MarksInv, ResultsInv, AcceptedInv, WorkerStep, WorkerFits, ReaperFits,
      HasJob, Later;
    var st' := WorkerStep(cfg, st, w, a).value;
    SafetyParts(cfg, st);
    PcsLater(st, st');
    WorkerMoves(cfg, st, w, a);
    MovedWorkerFits(cfg, st, w, a);
  }

  lemma MovedWorkerFits(cfg: Config, st: State, w: nat, a: WorkerAction)
    requires ValidConfig(cfg) && SafetyInv(cfg, st) && WorkerStep(cfg, st, w, a).Some?
    requires Later(st, WorkerStep(cfg, st, w, a).value)
    ensures WorkerFits(WorkerStep(cfg, st, w, a).value, WorkerStep(cfg, st, w, a).value.workers[w])
  {
    hide SafetyInv, DbInv, JobsInv, StreamOk, PcsInv, MarksInv, ResultsInv, AcceptedInv, Later;
    hide ReadStep, ClaimStep, FinishStep, PublishStep, AckStep, WorkerFits;
    SafetyParts(cfg, st);
    match a {
      case Claim(token) => ClaimedWorkerFits(cfg, st, w, token);
      case Finish(result) => FinishedWorkerFits(cfg, st, w, result);
      case Read => ReadingWorkerFits(st, w);
      case Publish(delivered, ok) => PublishingWorkerFits(st, w, delivered, ok);
      case Ack => AckedIsIdle(st, w);
      case Crash => IdleFits(WorkerStep(cfg, st, w, a).value);
    }
  }

  lemma IdleFits(st: State)
    ensures WorkerFits(st, Idle)
  {
  }

  lemma AckedIsIdle(st: State, w: nat)
    requires AckStep(st, w).Some?
    ensures WorkerFits(AckStep(st, w).value, AckStep(st, w).value.workers[w])
  {
    hide FinalizeEntry;
  }

  lemma ReadingWorkerFits(st: State, w: nat)
    requires JobsInv(st) && ReadStep(st, w).Some?
    ensures WorkerFits(ReadStep(st, w).value, ReadStep(st, w).value.workers[w])
  {
    assert JobsInv(st) && StreamOk(st.stream);
    var e := st.stream.undelivered[0];
    assert e in st.stream.entries && 0 < e < st.stream.next && e in st.jobs && st.stream.entries[e] == st.jobs[e];
    hide JobsInv, StreamOk;
  }

  lemma PublishingWorkerFits(st: State, w: nat, delivered: bool, ok: bool)
    requires PcsInv(st) && PublishStep(st, w, delivered, ok).Some?
    requires Later(st, PublishStep(st, w, delivered, ok).value)
    ensures WorkerFits(PublishStep(st, w, delivered, ok).value, PublishStep(st, w, delivered, ok).value.workers[w])
  {
    hide PcsInv, Later, RecordFits, EventFor;
    WorkerPcFits(st, w);
    PcsLater(st, PublishStep(st, w, delivered, ok).value);
    assert WorkerFits(PublishStep(st, w, delivered, ok).value, st.workers[w]);
  }

  lemma SweeperPcs(cfg: Config, st: State, r: nat, a: SweepAction)
    requires ValidConfig(cfg) && SafetyInv(cfg, st) && SweeperStep(cfg, st, r, a).Some?
    requires Later(st, SweeperStep(cfg, st, r, a).value)
    ensures PcsInv(SweeperStep(cfg, st, r, a).value)
  {
    hide SafetyInv, DbInv, JobsInv, StreamOk, MarksInv, ResultsInv, AcceptedInv, SweeperStep, WorkerFits,
      ReaperFits, HasJob, Later;
    var st' := SweeperStep(cfg, st, r, a).value;
    SafetyParts(cfg, st);
    PcsLater(st, st');
    SweeperHistory(cfg, st, r, a);
    MovedReaperFits(cfg, st, r, a);
  }

  lemma MovedReaperFits(cfg: Config, st: State, r: nat, a: SweepAction)
    requires JobsInv(st) && PcsInv(st) && SweeperStep(cfg, st, r, a).Some?
    requires Later(st, SweeperStep(cfg, st, r, a).value)
    ensures ReaperFits(SweeperStep(cfg, st, r, a).value, SweeperStep(cfg, st, r, a).value.reapers[r])
  {
    hide JobsInv, PcsInv, Later, WorkerFits, SweepStep, CheckStep, ReplaceStep, RemarkStep, RemoveStep;
    var st' := SweeperStep(cfg, st, r, a).value;
    ReaperPcFits(st);
    PcsLater(st, st');
    match a {
      case Sweep(e) => SweepingReaperFits(cfg, st, r, e);
      case Check => CheckingReaperFits(st, r);
      case _ => OtherReaperFits(cfg, st, r, a);
    }
  }

  lemma ReaperPcFits(st: State)
    requires PcsInv(st)
    ensures forall r | r in st.reapers :: ReaperFits(st, st.reapers[r])
  {
    hide WorkerFits, ReaperFits, HasJob;
  }

  lemma SweepingReaperFits(cfg: Config, st: State, r: nat, e: nat)
    requires JobsInv(st) && SweepStep(cfg, st, r, e).Some?
    ensures var st' := SweepStep(cfg, st, r, e).value; ReaperFits(st', st'.reapers[r])
  {
  }

  lemma CheckingReaperFits(st: State, r: nat)
    requires CheckStep(st, r).Some? && (r in st.reapers ==> ReaperFits(st, st.reapers[r]))
    ensures var st' := CheckStep(st, r).value; ReaperFits(st', st'.reapers[r])
  {
  }

  lemma OtherReaperFits(cfg: Config, st: State, r: nat, a: SweepAction)
    requires SweeperStep(cfg, st, r, a).Some? && !a.Sweep? && !a.Check?
    requires r in st.reapers ==> ReaperFits(st, st.reapers[r])
    requires forall pc | ReaperFits(st, pc) :: ReaperFits(SweeperStep(cfg, st, r, a).value, pc)
    ensures ReaperFits(SweeperStep(cfg, st, r, a).value, SweeperStep(cfg, st, r, a).value.reapers[r])
  {
    if r in st.reapers {
      assert ReaperFits(SweeperStep(cfg, st, r, a).value, st.reapers[r]);
    }
    hide Dispatch.MarkTx, FinalizeEntry, Add;
  }

  lemma StepPcs(cfg: Config, st: State, a: Action)
    requires ValidConfig(cfg) && SafetyInv(cfg, st) && Step(cfg, st, a).Some?
    ensures PcsInv(Step(cfg, st, a).value)
  {
    StepLater(cfg, st, a);
    assert JobsInv(st) && PcsInv(st);
    hide SafetyInv, PcsInv, JobsInv, WorkerStep, SweeperStep, TableStep, Later, EnqueueStep, MarkStep;
    match a {
      case Work(w, t) => WorkerPcs(cfg, st, w, t);
      case Reap(r, t) => SweeperPcs(cfg, st, r, t);
      case _ => OtherPcs(cfg, st, a);
    }
  }

  /** Steps that touch no worker and no reaper. */
  lemma OtherPcs(cfg: Config, st: State, a: Action)
    requires JobsInv(st) && PcsInv(st) && Step(cfg, st, a).Some? && Later(st, Step(cfg, st, a).value)
    requires !a.Work? && !a.Reap?
    ensures PcsInv(Step(cfg, st, a).value)
  {
    var st' := Step(cfg, st, a).value;
    PcsLater(st, st');
    hide JobsInv, TableStep, WorkerFits, ReaperFits, HasJob, Later, Add, Dispatch.MarkTx;
    match a {
      case Table(t) => TableHistory(cfg, st, t);
      case Enqueue(d, sub) => AddJobKeeps(st, sub, st');
      case _ =>
    }
  }

  // ---------------------------------------------------------- marks and results

  ghost predicate NoNewMark(db: Db, db': Db) {
    forall s | s in db'.subs && db'.subs[s].enqueued.Some? :: s in db.subs && db.subs[s].enqueued.Some?
  }

  lemma TableMarks(cfg: Config, st: State, a: TableAction)
    requires TableStep(cfg, st, a).Some?
    ensures NoNewMark(st.db, TableStep(cfg, st, a).value.db)
  {
    if a.OpenMatch? {
      MatchCreation.CreateMeaning(st.db, a.a, a.b, cfg.matchDuration, st.clock, a.id);
    }
  }

  lemma ClaimMarks(db: Db, s: Uuid, token: Uuid, lease: nat, now: nat)
    ensures NoNewMark(db, ClaimTx(db, s, token, lease, now).0)
  {
  }

  lemma CompleteMarks(db: Db, c: Claimed, r: Terminal, now: nat)
    ensures NoNewMark(db, CompleteTx(db, c, r, now).0)
  {
  }

  lemma WorkerMarks(cfg: Config, st: State, w: nat, a: WorkerAction)
    requires WorkerStep(cfg, st, w, a).Some?
    ensures NoNewMark(st.db, WorkerStep(cfg, st, w, a).value.db)
  {
    if a.Claim? && st.workers[w].job.JobFor? {
      ClaimMarks(st.db, st.workers[w].job.sub, a.token, cfg.attemptLease, st.clock);
    }
    if a.Finish? {
      CompleteMarks(st.db, st.workers[w].claimed, a.result, st.clock);
    }
    hide ClaimTx, CompleteTx, Deliver, FinalizeEntry, Announcing, EventFor;
  }

  lemma UnmarkedKeeps(st: State, st': State)
    requires Later(st, st') && MarksInv(st) && NoNewMark(st.db, st'.db)
    ensures MarksInv(st')
  {
  }

  lemma MarkedKeeps(st: State, st': State, s: Uuid)
    requires Later(st, st') && MarksInv(st) && st'.db == Dispatch.MarkTx(st.db, s, st.clock) && HasJob(st, s)
    ensures MarksInv(st')
  {
  }

  lemma StepMarks(cfg: Config, st: State, a: Action)
    requires ValidConfig(cfg) && SafetyInv(cfg, st) && Step(cfg, st, a).Some?
    ensures MarksInv(Step(cfg, st, a).value)
  {
    var st' := Step(cfg, st, a).value;
    StepLater(cfg, st, a);
    hide DbInv, JobsInv, ResultsInv, AcceptedInv, MarksInv, NoNewMark, WorkerStep, TableStep;
    hide WorkerFits, HasJob, Later, Add, Reassign, FinalizeEntry, Dispatch.MarkTx;
    match a {
      case Work(w, t) => WorkerMarks(cfg, st, w, t); UnmarkedKeeps(st, st');
      case Table(t) => TableMarks(cfg, st, t); UnmarkedKeeps(st, st');
      case Reap(r, t) => SweeperMarks(cfg, st, r, t);
      case Mark(d) => MarkedKeeps(st, st', st.dispatchers[d].sub);
      case _ => SameMarks(st.db); UnmarkedKeeps(st, st');
    }
  }

  lemma SameMarks(db: Db)
    ensures NoNewMark(db, db)
  {
  }

  lemma SweeperMarks(cfg: Config, st: State, r: nat, a: SweepAction)
    requires MarksInv(st) && PcsInv(st) && SweeperStep(cfg, st, r, a).Some?
    requires Later(st, SweeperStep(cfg, st, r, a).value)
    ensures MarksInv(SweeperStep(cfg, st, r, a).value)
  {
    var st' := SweeperStep(cfg, st, r, a).value;
    if a.Remark? {
      assert ReaperFits(st, st.reapers[r]);
      assert HasJob(st, st.reapers[r].sub);
      MarkedKeeps(st, st', st.reapers[r].sub);
    } else {
      hide MarksInv, PcsInv, NoNewMark, Later, Add, Reassign, FinalizeEntry;
      SameMarks(st.db);
      UnmarkedKeeps(st, st');
    }
  }

  lemma StepResults(cfg: Config, st: State, a: Action)
    requires ValidConfig(cfg) && SafetyInv(cfg, st) && Step(cfg, st, a).Some?
    ensures ResultsInv(Step(cfg, st, a).value)
  {
    var st' := Step(cfg, st, a).value;
    StepLater(cfg, st, a);
    assert DbInv(cfg.maxAttempts, st.db) && PcsInv(st) && ResultsInv(st) && Evolves(st.db, st'.db);
    StepAddsGood(cfg, st, a);
    hide *;
    ResultsGrow(st, st');
  }

  lemma ResultsGrow(st: State, st': State)
    requires ResultsInv(st) && Evolves(st.db, st'.db) && OnlyGoodResults(st, st')
    ensures ResultsInv(st')
  {
  }

  lemma StepAddsGood(cfg: Config, st: State, a: Action)
    requires DbInv(cfg.maxAttempts, st.db) && PcsInv(st) && Step(cfg, st, a).Some?
    ensures OnlyGoodResults(st, Step(cfg, st, a).value)
  {
    hide DbInv, PcsInv, WorkerStep, SweeperStep, TableStep, RecordFits, Add, Dispatch.MarkTx;
    match a {
      case Work(w, t) => NewResults(cfg, st, w, t);
      case Reap(r, t) => SweeperHistory(cfg, st, r, t);
      case Table(t) => TableHistory(cfg, st, t);
      case _ =>
    }
  }

  /** The records and events a step may add. */
  ghost predicate OnlyGoodResults(st: State, st': State) {
    && (forall s | s in st'.returned && !(s in st.returned && st'.returned[s] == st.returned[s]) ::
          st'.returned[s].sub == s && RecordFits(st'.db, st'.returned[s]))
    && (forall e | e in st'.events && e !in st.events ::
          RecordFits(st'.db, e.record) && e.recipient in e.record.players && e == EventFor(e.record, e.recipient))
  }

  lemma PublishResults(st: State, w: nat, delivered: bool, ok: bool)
    requires PcsInv(st) && PublishStep(st, w, delivered, ok).Some?
    ensures OnlyGoodResults(st, PublishStep(st, w, delivered, ok).value)
  {
  }

  lemma FinishResults(cfg: Config, st: State, w: nat, result: Terminal)
    requires DbInv(cfg.maxAttempts, st.db) && PcsInv(st) && FinishStep(st, w, result).Some?
    ensures OnlyGoodResults(st, FinishStep(st, w, result).value)
  {
    assert WorkerFits(st, st.workers[w]);
    FinishedRecordFits(cfg.maxAttempts, st.db, st.workers[w].claimed, result, st.clock);
    hide DbInv, PcsInv, RecordFits, ClaimFits, CompleteTx, AfterFinish;
  }

  lemma NewResults(cfg: Config, st: State, w: nat, a: WorkerAction)
    requires DbInv(cfg.maxAttempts, st.db) && PcsInv(st) && WorkerStep(cfg, st, w, a).Some?
    ensures OnlyGoodResults(st, WorkerStep(cfg, st, w, a).value)
  {
    match a {
      case Finish(result) => FinishResults(cfg, st, w, result);
      case Publish(delivered, ok) => PublishResults(st, w, delivered, ok);
      case _ =>
        hide DbInv, PcsInv, ClaimTx, Deliver, FinalizeEntry, AfterClaim;
    }
  }

  lemma AcceptedLater(st: State, st': State)
    requires AcceptedInv(st) && Evolves(st.db, st'.db)
    requires |st.accepted| <= |st'.accepted| <= |st.accepted| + 1 && st'.accepted[..|st.accepted|] == st.accepted
    requires |st'.accepted| > |st.accepted| ==>
               var (r, id) := st'.accepted[|st.accepted|];
               id in st'.db.subs && HasKey(st'.db.subs[id], r) && SamePayload(st'.db.subs[id], r)
    ensures AcceptedInv(st')
  {
  }

  lemma StepAccepted(cfg: Config, st: State, a: Action)
    requires ValidConfig(cfg) && SafetyInv(cfg, st) && Step(cfg, st, a).Some?
    ensures AcceptedInv(Step(cfg, st, a).value)
  {
    var st' := Step(cfg, st, a).value;
    StepLater(cfg, st, a);
    match a {
      case Work(w, t) => WorkerHistory(cfg, st, w, t);
      case Reap(r, t) => SweeperHistory(cfg, st, r, t);
      case Table(t) => TableAccepted(cfg, st, t);
      case _ =>
    }
    hide DbInv, JobsInv, MarksInv, ResultsInv, AcceptedInv, PcsInv, WorkerStep, SweeperStep, TableStep, HasKey,
      SamePayload;
    hide Add, Dispatch.MarkTx, Evolves;
    AcceptedLater(st, st');
  }

  lemma TableAccepted(cfg: Config, st: State, a: TableAction)
    requires DbInv(cfg.maxAttempts, st.db) && TableStep(cfg, st, a).Some?
    ensures var st' := TableStep(cfg, st, a).value;
      && |st.accepted| <= |st'.accepted| <= |st.accepted| + 1
      && st'.accepted[..|st.accepted|] == st.accepted
      && (|st'.accepted| > |st.accepted| ==>
            var (r, id) := st'.accepted[|st.accepted|];
            id in st'.db.subs && HasKey(st'.db.subs[id], r) && SamePayload(st'.db.subs[id], r))
  {
    hide AcceptTx, MatchCreation.CreateTx, MatchEnd.FinalizeTx, MatchEnd.DueKeys, Leases.ReclaimRow, Leases.Expired;
    if a.Submit? {
      AcceptMeaning(st.db, a.request, a.sampled, a.id);
    }
  }

  // --------------------------------------------------------------------- any run

  lemma StepKeeps(cfg: Config, st: State, a: Action)
    requires ValidConfig(cfg) && SafetyInv(cfg, st) && Step(cfg, st, a).Some?
    ensures SafetyInv(cfg, Step(cfg, st, a).value) && Later(st, Step(cfg, st, a).value)
  {
    hide Step;
    assert DbInv(cfg.maxAttempts, Step(cfg, st, a).value.db) by { StepTables(cfg, st, a); }
    assert JobsInv(Step(cfg, st, a).value) by { StepJobs(cfg, st, a); }
    hide DbInv, JobsInv, PcsInv, MarksInv, ResultsInv, AcceptedInv, Later;
    StepLater(cfg, st, a);
    StepPcs(cfg, st, a);
    StepMarks(cfg, st, a);
    StepResults(cfg, st, a);
    StepAccepted(cfg, st, a);
  }

  lemma InitSafe(cfg: Config, st: State)
    requires Init(st)
    ensures SafetyInv(cfg, st)
  {
  }

  lemma {:induction false} RunKeeps(cfg: Config, st: State, acts: seq<Action>)
    requires ValidConfig(cfg) && SafetyInv(cfg, st) && Run(cfg, st, acts).Some?
    ensures SafetyInv(cfg, Run(cfg, st, acts).value) && Later(st, Run(cfg, st, acts).value)
    decreases |acts|
  {
    hide Step, SafetyInv;
    if acts == [] {
      EvolvesReflexive(st.db);
    } else {
      var next := Step(cfg, st, acts[0]).value;
      StepKeeps(cfg, st, acts[0]);
      RunKeeps(cfg, next, acts[1..]);
      LaterTransitive(st, next, Run(cfg, st, acts).value);
    }
  }
}
