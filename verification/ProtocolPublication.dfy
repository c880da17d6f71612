// At-least-once publication, as long as every claim that acquires a submission
// leaves it an entry that nobody is going to drop while the attempt lasts.
module ProtocolPublication {
  import opened Base
  import opened Rows
  import opened JudgeStore
  import opened JudgeResult
  import opened Stream
  import opened Protocol
  import opened ProtocolSafety
  import opened ProtocolTheorems
  import Dispatch
  import MatchCreation
  import MatchEnd

  // --------------------------------------------------------------- what has to be there

  /** Someone is about to finalise the entry. */
  ghost predicate Doomed(st: State, e: nat) {
    || (exists w :: w in st.workers && st.workers[w] == Discarding(e))
    || (exists r :: r in st.reapers && st.reapers[r] == Removing(e))
    || (exists r, s :: r in st.reapers && st.reapers[r] == Remarking(e, s))
  }

  ghost predicate Told(st: State, s: Uuid, p: Uuid) {
    exists ev :: ev in st.events && ev.record.sub == s && ev.recipient == p
  }

  ghost predicate ToldBoth(st: State, s: Uuid)
    requires s in st.returned
  {
    forall p | p in st.returned[s].players :: Told(st, s, p)
  }

  /** An entry for the submission that nobody is about to remove. */
  ghost predicate Carries(st: State, s: Uuid, e: nat) {
    e in st.stream.entries && e in st.jobs && st.jobs[e] == JobFor(s) && !Doomed(st, e)
  }

  ghost predicate Covered(st: State, s: Uuid) {
    exists e :: Carries(st, s, e)
  }

  // ------------------------------------------------------------------- assumption

  /** A pending entry of the submission that nobody drops while it is running: no
      worker has it still to claim and no reaper has decided to replace it. */
  ghost predicate Safe(st: State, s: Uuid, e: nat) {
    && Carries(st, s, e) && e in st.stream.pel
    && (forall w | w in st.workers && st.workers[w].Received? :: st.workers[w].entry != e)
    && (forall r | r in st.reapers && st.reapers[r].Replacing? :: st.reapers[r].entry != e)
  }

  ghost predicate Backed(st: State, s: Uuid) {
    exists e :: Safe(st, s, e)
  }

  /** The step is a claim that acquires the submission. */
  ghost predicate Acquires(cfg: Config, st: State, a: Action, s: Uuid) {
    && a.Work? && a.does.Claim? && ClaimStep(cfg, st, a.w, a.does.token).Some?
    && var next := ClaimStep(cfg, st, a.w, a.does.token).value;
    && a.w in next.workers && next.workers[a.w].Executing? && next.workers[a.w].claimed.sub == s
  }

  /** Whatever the step acquires has a safe entry right after it. */
  ghost predicate BackedStep(cfg: Config, st: State, a: Action) {
    forall s | Acquires(cfg, st, a, s) :: Backed(Step(cfg, st, a).value, s)
  }

  ghost predicate BackedRun(cfg: Config, st: State, acts: seq<Action>)
    decreases |acts|
  {
    acts != [] ==>
      (&& BackedStep(cfg, st, acts[0])
       && (Step(cfg, st, acts[0]).Some? ==> BackedRun(cfg, Step(cfg, st, acts[0]).value, acts[1..])))
  }

  /** Only a claim can acquire. */
  lemma {:induction false} NoClaims(cfg: Config, st: State, acts: seq<Action>)
    requires forall a | a in acts :: !(a.Work? && a.does.Claim?)
    ensures BackedRun(cfg, st, acts)
    decreases |acts|
  {
    hide Step;
    if acts != [] && Step(cfg, st, acts[0]).Some? {
      NoClaims(cfg, Step(cfg, st, acts[0]).value, acts[1..]);
    }
  }

  lemma {:induction false} BackedJoin(cfg: Config, st: State, a: seq<Action>, b: seq<Action>)
    requires BackedRun(cfg, st, a) && Run(cfg, st, a).Some? && BackedRun(cfg, Run(cfg, st, a).value, b)
    ensures BackedRun(cfg, st, a + b)
    decreases |a|
  {
    hide Step, BackedStep;
    if a == [] {
      assert a + b == b;
    } else {
      assert (a + b)[1..] == a[1..] + b && (a + b)[0] == a[0];
      BackedJoin(cfg, Step(cfg, st, a[0]).value, a[1..], b);
    }
  }

  /** Nobody but worker `w` has the entry in hand. */
  ghost predicate OnlyWorker(st: State, w: nat, e: nat) {
    && (forall v | v in st.workers && v != w && !st.workers[v].Idle? :: st.workers[v].entry != e)
    && (forall r | r in st.reapers && !st.reapers[r].Free? :: st.reapers[r].entry != e)
  }

  /** A claim through a pending entry that nobody else has in hand is backed by it. */
  lemma OwnEntryBacks(cfg: Config, st: State, w: nat, token: Uuid)
    requires JobsInv(st) && PcsInv(st) && w in st.workers && st.workers[w].Received?
    requires st.workers[w].entry in st.stream.pel && OnlyWorker(st, w, st.workers[w].entry)
    ensures BackedStep(cfg, st, Work(w, Claim(token)))
  {
    hide JobsInv, PcsInv, Acquires, Step, Backed, OnlyWorker;
    forall s | Acquires(cfg, st, Work(w, Claim(token)), s)
      ensures Step(cfg, st, Work(w, Claim(token))).Some? && Backed(Step(cfg, st, Work(w, Claim(token))).value, s)
    {
      AcquiredIsBacked(cfg, st, w, token, s);
    }
  }

  lemma AcquiredIsBacked(cfg: Config, st: State, w: nat, token: Uuid, s: Uuid)
    requires JobsInv(st) && PcsInv(st) && w in st.workers && st.workers[w].Received?
    requires st.workers[w].entry in st.stream.pel && OnlyWorker(st, w, st.workers[w].entry)
    requires Acquires(cfg, st, Work(w, Claim(token)), s)
    ensures Step(cfg, st, Work(w, Claim(token))).Some? && Backed(Step(cfg, st, Work(w, Claim(token))).value, s)
  {
    hide ClaimStep, JobsInv, PcsInv, Step, Backed, WorkerFits, OnlyWorker;
    PendingIsJob(st, st.workers[w].entry);
    WorkerPcFits(st, w);
    ReceivedJob(st, w);
    ClaimIsStep(cfg, st, w, token);
    ClaimShape(cfg, st, w, token, s);
    hide Acquires;
    AloneIsSafe(st, ClaimStep(cfg, st, w, token).value, w, s, st.workers[w].entry);
  }

  lemma ClaimIsStep(cfg: Config, st: State, w: nat, token: Uuid)
    ensures Step(cfg, st, Work(w, Claim(token))) == ClaimStep(cfg, st, w, token)
  {
    hide ClaimStep;
  }

  lemma PendingIsJob(st: State, e: nat)
    requires JobsInv(st) && e in st.stream.pel
    ensures e in st.stream.entries && e in st.jobs
  {
  }

  lemma ReceivedJob(st: State, w: nat)
    requires w in st.workers && st.workers[w].Received? && WorkerFits(st, st.workers[w])
    ensures st.workers[w].entry in st.jobs && st.jobs[st.workers[w].entry] == st.workers[w].job
  {
  }

  lemma AloneIsSafe(st: State, st': State, w: nat, s: Uuid, e: nat)
    requires e in st.stream.pel && e in st.stream.entries && e in st.jobs && st.jobs[e] == JobFor(s)
    requires OnlyWorker(st, w, e)
    requires st'.stream == st.stream && st'.jobs == st.jobs && st'.reapers == st.reapers
    requires w in st'.workers && st'.workers[w].Executing? && st'.workers == st.workers[w := st'.workers[w]]
    ensures Backed(st', s)
  {
    assert Safe(st', s, e);
  }

  lemma ClaimShape(cfg: Config, st: State, w: nat, token: Uuid, s: Uuid)
    requires Acquires(cfg, st, Work(w, Claim(token)), s)
    ensures ClaimStep(cfg, st, w, token).Some?
    ensures var st' := ClaimStep(cfg, st, w, token).value;
      && st'.stream == st.stream && st'.jobs == st.jobs && st'.reapers == st.reapers
      && w in st.workers && st.workers[w].Received? && st.workers[w].job == JobFor(s)
      && w in st'.workers && st'.workers[w].Executing? && st'.workers == st.workers[w := st'.workers[w]]
      && RunningSub(st'.db, s)
  {
    hide Announceable;
  }

  // ---------------------------------------------------------------- running attempts

  ghost predicate RunningSub(db: Db, s: Uuid) {
    s in db.subs && db.subs[s].status == Running
  }

  /** Every running submission has a safe entry. */
  ghost predicate RunningInv(st: State) {
    forall s | RunningSub(st.db, s) :: Backed(st, s)
  }

  lemma SafeCarries(st: State, s: Uuid, e: nat)
    requires Safe(st, s, e)
    ensures Carries(st, s, e)
  {
  }

  /** No submission starts to run, except in `but`. */
  ghost predicate NoneStarts(db: Db, db': Db, but: set<Uuid>) {
    forall s | RunningSub(db', s) && s !in but :: RunningSub(db, s)
  }

  lemma ClaimStarts(db: Db, s: Uuid, token: Uuid, lease: nat, now: nat)
    ensures var (db', res) := ClaimTx(db, s, token, lease, now);
      NoneStarts(db, db', if res.Acquired? then {s} else {}) && (res.Acquired? ==> res.claimed.sub == s)
  {
  }

  lemma CompleteStarts(db: Db, c: Claimed, r: Terminal, now: nat)
    ensures NoneStarts(db, CompleteTx(db, c, r, now).0, {})
  {
  }

  lemma WorkerStarts(cfg: Config, st: State, w: nat, a: WorkerAction, s: Uuid)
    requires WorkerStep(cfg, st, w, a).Some?
    requires RunningSub(WorkerStep(cfg, st, w, a).value.db, s) && !RunningSub(st.db, s)
    ensures Acquires(cfg, st, Work(w, a), s)
  {
    if a.Claim? && st.workers[w].job.JobFor? {
      ClaimStarts(st.db, st.workers[w].job.sub, a.token, cfg.attemptLease, st.clock);
    }
    if a.Finish? {
      CompleteStarts(st.db, st.workers[w].claimed, a.result, st.clock);
    }
    hide ClaimTx, CompleteTx, Deliver, FinalizeEntry, Announcing, EventFor, RunningSub;
  }

  lemma TableStarts(cfg: Config, st: State, a: TableAction)
    requires TableStep(cfg, st, a).Some?
    ensures NoneStarts(st.db, TableStep(cfg, st, a).value.db, {})
  {
    if a.OpenMatch? {
      MatchCreation.CreateMeaning(st.db, a.a, a.b, cfg.matchDuration, st.clock, a.id);
    }
    hide MatchCreation.CreateTx, MatchEnd.DueKeys;
  }

  lemma MarkStarts(db: Db, s: Uuid, now: nat)
    ensures NoneStarts(db, Dispatch.MarkTx(db, s, now), {})
  {
  }

  lemma OthersStart(cfg: Config, st: State, a: Action)
    requires Step(cfg, st, a).Some? && (a.Tick? || a.Enqueue? || a.Mark? || a.Reap?)
    ensures NoneStarts(st.db, Step(cfg, st, a).value.db, {})
  {
    if a.Mark? { MarkStarts(st.db, st.dispatchers[a.d].sub, st.clock); }
    if a.Reap? && a.step.Remark? { MarkStarts(st.db, st.reapers[a.r].sub, st.clock); }
    hide RunningSub, Dispatch.MarkTx, Add, FinalizeEntry, Reassign;
  }

  /** Only an acquiring claim makes a submission run. */
  lemma StepStarts(cfg: Config, st: State, a: Action, s: Uuid)
    requires Step(cfg, st, a).Some? && RunningSub(Step(cfg, st, a).value.db, s) && !RunningSub(st.db, s)
    ensures Acquires(cfg, st, a, s)
  {
    hide WorkerStep, TableStep, SweeperStep, EnqueueStep, MarkStep, Acquires, RunningSub;
    match a {
      case Work(w, t) => WorkerStarts(cfg, st, w, t, s);
      case Table(t) => TableStarts(cfg, st, t);
      case _ => OthersStart(cfg, st, a);
    }
  }

  /** A worker's step leaves the safe entry of a running submission safe. */
  lemma WorkerSafe(cfg: Config, st: State, w: nat, a: WorkerAction, s: Uuid, e: nat)
    requires JobsInv(st) && PcsInv(st) && WorkerStep(cfg, st, w, a).Some? && Safe(st, s, e) && RunningSub(st.db, s)
    ensures Safe(WorkerStep(cfg, st, w, a).value, s, e)
  {
    hide WorkerStep, JobsInv, PcsInv, RunningSub, EntryOf, Doomed;
    WorkerMoves(cfg, st, w, a);
    WorkerEntries(cfg, st, w, a);
    WorkerPending(cfg, st, w, a, e);
    WorkerDrops(cfg, st, w, a, s, e);
    KeptIsSafe(st, WorkerStep(cfg, st, w, a).value, w, s, e);
  }

  lemma KeptIsSafe(st: State, st': State, w: nat, s: Uuid, e: nat)
    requires Safe(st, s, e) && st'.jobs == st.jobs && st'.reapers == st.reapers
    requires w in st'.workers && st'.workers == st.workers[w := st'.workers[w]]
    requires e in st'.stream.entries && e in st'.stream.pel
    requires st'.workers[w] != Discarding(e) && (st'.workers[w].Received? ==> st'.workers[w].entry != e)
    ensures Safe(st', s, e)
  {
  }

  /** It keeps the entry pending and does not take it up anew. */
  lemma WorkerPending(cfg: Config, st: State, w: nat, a: WorkerAction, e: nat)
    requires JobsInv(st) && WorkerStep(cfg, st, w, a).Some? && e in st.stream.pel
    ensures var st' := WorkerStep(cfg, st, w, a).value;
      && (st'.workers[w].Received? ==> a.Read? && st'.workers[w].entry != e)
      && (e in st'.stream.pel || (a.Ack? && EntryOf(st, w) == e))
  {
    hide ClaimTx, CompleteTx, EventFor, Announceable;
  }

  /** It does not decide to drop it: a claim of it was over, and an announced
      submission does not run. */
  lemma WorkerDrops(cfg: Config, st: State, w: nat, a: WorkerAction, s: Uuid, e: nat)
    requires PcsInv(st) && WorkerStep(cfg, st, w, a).Some? && Safe(st, s, e) && RunningSub(st.db, s)
    ensures WorkerStep(cfg, st, w, a).value.workers[w] != Discarding(e)
    ensures !(a.Ack? && EntryOf(st, w) == e)
  {
    assert w in st.workers ==> WorkerFits(st, st.workers[w]);
    hide PcsInv, ClaimTx, CompleteTx, EventFor, Announceable, ClaimFits;
  }

  lemma SweeperSafe(cfg: Config, st: State, r: nat, a: SweepAction, s: Uuid, e: nat)
    requires JobsInv(st) && PcsInv(st) && SweeperStep(cfg, st, r, a).Some? && Safe(st, s, e) && RunningSub(st.db, s)
    ensures Safe(SweeperStep(cfg, st, r, a).value, s, e)
  {
    hide SweeperStep, JobsInv, PcsInv, RunningSub, Safe, LetsGo;
    SweeperHistory(cfg, st, r, a);
    SweeperDrops(cfg, st, r, a, s, e);
    LetGoIsSafe(st, SweeperStep(cfg, st, r, a).value, r, s, e);
  }

  /** The entry is there, pending, and not about to be dropped by reaper `r`. */
  ghost predicate LetsGo(st: State, r: nat, s: Uuid, e: nat) {
    && e in st.stream.entries && e in st.stream.pel && e in st.jobs && st.jobs[e] == JobFor(s)
    && r in st.reapers
    && !((st.reapers[r].Replacing? || st.reapers[r].Remarking? || st.reapers[r].Removing?) && st.reapers[r].entry == e)
  }

  lemma LetGoIsSafe(st: State, st': State, r: nat, s: Uuid, e: nat)
    requires Safe(st, s, e) && LetsGo(st', r, s, e)
    requires st'.workers == st.workers && st'.reapers == st.reapers[r := st'.reapers[r]]
    ensures Safe(st', s, e)
  {
  }

  /** A reaper lets go of the entry of a running submission. */
  lemma SweeperDrops(cfg: Config, st: State, r: nat, a: SweepAction, s: Uuid, e: nat)
    requires JobsInv(st) && PcsInv(st) && SweeperStep(cfg, st, r, a).Some? && Safe(st, s, e) && RunningSub(st.db, s)
    ensures LetsGo(SweeperStep(cfg, st, r, a).value, r, s, e)
  {
    assert e < st.stream.next;
    assert r in st.reapers ==> ReaperFits(st, st.reapers[r]);
    hide JobsInv, PcsInv, Dispatch.MarkTx, Doomed, WorkerFits;
    match a {
      case Check => CheckDrops(st, r, s, e);
      case Replace => ReplaceDrops(st, r, s, e);
      case Remove => RemoveDrops(st, r, s, e);
      case Remark => RemarkDrops(st, r, s, e);
      case _ => hide RunningSub, ReaperFits;
    }
  }

  lemma CheckDrops(st: State, r: nat, s: Uuid, e: nat)
    requires CheckStep(st, r).Some? && Safe(st, s, e) && RunningSub(st.db, s)
    requires r in st.reapers && ReaperFits(st, st.reapers[r])
    ensures LetsGo(CheckStep(st, r).value, r, s, e)
  {
    hide Doomed;
  }

  lemma ReplaceDrops(st: State, r: nat, s: Uuid, e: nat)
    requires ReplaceStep(st, r).Some? && Safe(st, s, e) && e < st.stream.next
    ensures LetsGo(ReplaceStep(st, r).value, r, s, e)
  {
    hide Doomed;
  }

  lemma RemoveDrops(st: State, r: nat, s: Uuid, e: nat)
    requires RemoveStep(st, r).Some? && Safe(st, s, e)
    ensures LetsGo(RemoveStep(st, r).value, r, s, e)
  {
  }

  lemma RemarkDrops(st: State, r: nat, s: Uuid, e: nat)
    requires RemarkStep(st, r).Some? && Safe(st, s, e)
    ensures LetsGo(RemarkStep(st, r).value, r, s, e)
  {
    hide Dispatch.MarkTx;
  }

  lemma StepSafe(cfg: Config, st: State, a: Action, s: Uuid, e: nat)
    requires JobsInv(st) && PcsInv(st) && Step(cfg, st, a).Some? && Safe(st, s, e) && RunningSub(st.db, s)
    ensures Safe(Step(cfg, st, a).value, s, e)
  {
    hide WorkerStep, SweeperStep, TableStep, EnqueueStep, MarkStep, JobsInv, PcsInv, RunningSub, Safe;
    match a {
      case Work(w, t) => WorkerSafe(cfg, st, w, t, s, e);
      case Reap(r, t) => SweeperSafe(cfg, st, r, t, s, e);
      case Table(t) =>
        TableHistory(cfg, st, t);
        SameHandsSafe(st, Step(cfg, st, a).value, s, e);
      case Enqueue(d, sub) => EnqueueSafe(st, d, sub, s, e);
      case Mark(d) => MarkSafe(st, d, s, e);
      case Tick(_) => SameHandsSafe(st, Step(cfg, st, a).value, s, e);
    }
  }

  lemma SameHandsSafe(st: State, st': State, s: Uuid, e: nat)
    requires Safe(st, s, e) && st'.stream == st.stream && st'.jobs == st.jobs
    requires st'.workers == st.workers && st'.reapers == st.reapers
    ensures Safe(st', s, e)
  {
  }

  lemma EnqueueSafe(st: State, d: nat, sub: Uuid, s: Uuid, e: nat)
    requires JobsInv(st) && EnqueueStep(st, d, sub).Some? && Safe(st, s, e)
    ensures Safe(EnqueueStep(st, d, sub).value, s, e)
  {
    assert e < st.stream.next;
    hide JobsInv;
  }

  lemma MarkSafe(st: State, d: nat, s: Uuid, e: nat)
    requires MarkStep(st, d).Some? && Safe(st, s, e)
    ensures Safe(MarkStep(st, d).value, s, e)
  {
    SameHandsSafe(st, MarkStep(st, d).value, s, e);
    hide Safe, Dispatch.MarkTx;
  }

  lemma StepRunning(cfg: Config, st: State, a: Action)
    requires JobsInv(st) && PcsInv(st) && RunningInv(st) && BackedStep(cfg, st, a) && Step(cfg, st, a).Some?
    ensures RunningInv(Step(cfg, st, a).value)
  {
    var st' := Step(cfg, st, a).value;
    hide JobsInv, PcsInv, Step, Safe, RunningSub, Acquires;
    forall s | RunningSub(st'.db, s) ensures Backed(st', s) {
      if RunningSub(st.db, s) {
        var e :| Safe(st, s, e);
        StepSafe(cfg, st, a, s, e);
      } else {
        StepStarts(cfg, st, a, s);
      }
    }
  }

  // ------------------------------------------------------------------ publication

  ghost predicate PublishedInv(st: State) {
    && (forall s | s in st.returned :: ToldBoth(st, s) || Covered(st, s))
    && (forall w | w in st.workers && st.workers[w].Publishing? && !st.workers[w].failed ::
          forall i | 0 <= i < st.workers[w].next && i < |st.workers[w].record.players| ::
            Told(st, st.workers[w].record.sub, st.workers[w].record.players[i]))
  }

  /** At most the entry `d` lost its protection or disappeared in this step. */
  ghost predicate Spares(st: State, st': State, d: nat) {
    && (forall e | e in st.jobs :: e in st'.jobs && st'.jobs[e] == st.jobs[e])
    && (forall e | e != d && e in st.stream.entries && e in st.jobs && !Doomed(st, e) ::
          e in st'.stream.entries && !Doomed(st', e))
  }

  lemma SparedStaysCovered(st: State, st': State, d: nat, s: Uuid)
    requires Spares(st, st', d) && Covered(st, s)
    requires d !in st.jobs || st.jobs[d] != JobFor(s) || Doomed(st, d) || Carries(st', s, d)
    ensures Covered(st', s)
  {
    var e :| Carries(st, s, e);
    if e != d {
      assert Carries(st', s, e);
    } else {
      assert Carries(st', s, d);
    }
  }

  lemma ToldLater(st: State, st': State)
    requires st.events <= st'.events
    ensures forall s, p | Told(st, s, p) :: Told(st', s, p)
  {
  }

  function EntryOf(st: State, w: nat): nat {
    if WorkerAt(st, w).Idle? then 0 else WorkerAt(st, w).entry
  }

  lemma WorkerEntries(cfg: Config, st: State, w: nat, a: WorkerAction)
    requires WorkerStep(cfg, st, w, a).Some?
    ensures var st' := WorkerStep(cfg, st, w, a).value;
      && st'.jobs == st.jobs
      && st'.stream.entries == (if a.Ack? && EntryOf(st, w) in st.stream.pel
                                then st.stream.entries - {EntryOf(st, w)} else st.stream.entries)
      && (st'.workers[w].Discarding? ==> !a.Ack? && WorkerAt(st, w) != Idle && st'.workers[w].entry == EntryOf(st, w))
      && (a.Ack? ==> w in st.workers && st.workers[w] == Discarding(EntryOf(st, w)))
  {
    hide ClaimTx, CompleteTx, EventFor, Announceable;
  }

  lemma WorkerSpares(cfg: Config, st: State, w: nat, a: WorkerAction)
    requires WorkerStep(cfg, st, w, a).Some?
    ensures Spares(st, WorkerStep(cfg, st, w, a).value, EntryOf(st, w))
  {
    var st' := WorkerStep(cfg, st, w, a).value;
    WorkerEntries(cfg, st, w, a);
    WorkerMoves(cfg, st, w, a);
    hide WorkerStep;
    forall e | Doomed(st', e) && e != EntryOf(st, w) ensures Doomed(st, e) {
      if v :| v in st'.workers && st'.workers[v] == Discarding(e) {
        assert v in st.workers && st.workers[v] == Discarding(e);
      }
    }
  }

  /** An entry is dropped only when its submission is unknown or still running
      elsewhere, or when both players were told. */
  lemma DropReason(cfg: Config, st: State, w: nat, a: WorkerAction, s: Uuid)
    requires DbInv(cfg.maxAttempts, st.db) && PcsInv(st) && ResultsInv(st) && PublishedInv(st)
    requires WorkerStep(cfg, st, w, a).Some? && WorkerStep(cfg, st, w, a).value.workers[w].Discarding?
    requires EntryOf(st, w) in st.jobs && st.jobs[EntryOf(st, w)] == JobFor(s) && s in st.returned
    ensures s in WorkerStep(cfg, st, w, a).value.returned && ToldBoth(WorkerStep(cfg, st, w, a).value, s)
  {
    hide DbInv, ResultsInv, PublishedInv, ToldBoth, ClaimStep, FinishStep, PublishStep;
    match a {
      case Claim(token) => DropClaim(cfg, st, w, token, s);
      case Finish(result) => NoDropAtFinish(st, w, result);
      case Publish(delivered, ok) =>
        PublishingWorker(st, w, delivered, ok);
        assert WorkerFits(st, st.workers[w]);
        LastPublish(cfg, st, w, delivered, ok, s);
      case _ =>
    }
  }

  lemma PublishingWorker(st: State, w: nat, delivered: bool, ok: bool)
    requires PublishStep(st, w, delivered, ok).Some?
    ensures w in st.workers && st.workers[w].Publishing?
    ensures PublishStep(st, w, delivered, ok).value.returned == st.returned
  {
  }

  lemma NoDropAtFinish(st: State, w: nat, result: Terminal)
    requires FinishStep(st, w, result).Some?
    ensures !FinishStep(st, w, result).value.workers[w].Discarding?
  {
  }

  lemma DropClaim(cfg: Config, st: State, w: nat, token: Uuid, s: Uuid)
    requires DbInv(cfg.maxAttempts, st.db) && PcsInv(st) && ResultsInv(st) && ClaimStep(cfg, st, w, token).Some?
    requires EntryOf(st, w) in st.jobs && st.jobs[EntryOf(st, w)] == JobFor(s) && s in st.returned
    ensures !ClaimStep(cfg, st, w, token).value.workers[w].Discarding?
  {
    assert WorkerFits(st, st.workers[w]);
    assert st.workers[w].Received? && st.workers[w].job == JobFor(s);
    hide DbInv, PcsInv, ResultsInv, WorkerFits, ClaimTx, Announcing;
    var res := ClaimTx(st.db, s, token, cfg.attemptLease, st.clock).1;
    assert ClaimStep(cfg, st, w, token).value.workers[w] == AfterClaim(st.workers[w].entry, res);
    hide ClaimStep;
    NotClaimable(cfg, st, s, token);
    AnnouncesOrStops(st.workers[w].entry, res);
  }

  lemma AnnouncesOrStops(e: nat, res: ClaimResult)
    requires !res.LiveAttempt? && !res.MissingSubmission?
    ensures !AfterClaim(e, res).Discarding?
  {
  }

  /** A completed submission is neither missing nor running. */
  lemma NotClaimable(cfg: Config, st: State, s: Uuid, token: Uuid)
    requires DbInv(cfg.maxAttempts, st.db) && ResultsInv(st) && s in st.returned
    ensures !ClaimTx(st.db, s, token, cfg.attemptLease, st.clock).1.LiveAttempt?
    ensures !ClaimTx(st.db, s, token, cfg.attemptLease, st.clock).1.MissingSubmission?
  {
    ClaimMeaning(cfg.maxAttempts, st.db, s, token, cfg.attemptLease, st.clock);
    assert RecordFits(st.db, st.returned[s]);
    hide ClaimTx;
  }

  lemma LastPublish(cfg: Config, st: State, w: nat, delivered: bool, ok: bool, s: Uuid)
    requires PcsInv(st) && ResultsInv(st) && PublishedInv(st) && PublishStep(st, w, delivered, ok).Some?
    requires PublishStep(st, w, delivered, ok).value.workers[w].Discarding?
    requires st.workers[w].record.sub == s && s in st.returned
    ensures ToldBoth(PublishStep(st, w, delivered, ok).value, s)
  {
    hide PublishStep, PcsInv, ResultsInv, PublishedInv, Told, RecordFits, Announceable, EventFor;
    var st' := PublishStep(st, w, delivered, ok).value;
    PublishShape(st, w, delivered, ok);
    var r := st.workers[w].record;
    PublisherFits(st, w, s);
    SamePlayers(st.db, r, st.returned[s]);
    ToldSoFar(st, w);
    ToldLater(st, st');
    EventNames(r, r.players[1]);
    NewlyTold(st', EventFor(r, r.players[1]));
  }

  lemma EventNames(r: Record, p: Uuid)
    ensures EventFor(r, p).record == r && EventFor(r, p).recipient == p
  {
  }

  /** The publish call after which a worker drops its entry is the last one, and
      everything went well. */
  lemma PublishShape(st: State, w: nat, delivered: bool, ok: bool)
    requires PublishStep(st, w, delivered, ok).Some? && PublishStep(st, w, delivered, ok).value.workers[w].Discarding?
    ensures w in st.workers && st.workers[w].Publishing? && !st.workers[w].failed
    ensures var st' := PublishStep(st, w, delivered, ok).value;
            var r := st.workers[w].record;
      && st.events <= st'.events && st'.returned == st.returned
      && st.workers[w].next + 1 == |r.players| && EventFor(r, r.players[|r.players| - 1]) in st'.events
  {
    hide EventFor;
  }

  lemma PublisherFits(st: State, w: nat, s: Uuid)
    requires PcsInv(st) && ResultsInv(st) && w in st.workers && st.workers[w].Publishing? && s in st.returned
    ensures RecordFits(st.db, st.workers[w].record) && Announceable(st.workers[w].record)
    ensures RecordFits(st.db, st.returned[s]) && st.returned[s].sub == s
  {
    assert WorkerFits(st, st.workers[w]);
    hide RecordFits, Announceable;
  }

  lemma ToldSoFar(st: State, w: nat)
    requires PublishedInv(st) && w in st.workers && st.workers[w].Publishing? && !st.workers[w].failed
    ensures var r := st.workers[w].record;
      forall i | 0 <= i < st.workers[w].next && i < |r.players| :: Told(st, r.sub, r.players[i])
  {
    hide Told;
  }

  /** Two records of one submission name the same two players. */
  lemma SamePlayers(db: Db, a: Record, b: Record)
    requires RecordFits(db, a) && RecordFits(db, b) && a.sub == b.sub && Announceable(a)
    ensures a.players == b.players && |a.players| == 2
  {
  }

  lemma NewlyTold(st: State, ev: Event)
    requires ev in st.events
    ensures Told(st, ev.record.sub, ev.recipient)
  {
  }

  lemma WorkerTelling(cfg: Config, st: State, w: nat, a: WorkerAction)
    requires PublishedInv(st) && WorkerStep(cfg, st, w, a).Some?
    ensures var st' := WorkerStep(cfg, st, w, a).value;
      forall v | v in st'.workers && st'.workers[v].Publishing? && !st'.workers[v].failed ::
        forall i | 0 <= i < st'.workers[v].next && i < |st'.workers[v].record.players| ::
          Told(st', st'.workers[v].record.sub, st'.workers[v].record.players[i])
  {
    var st' := WorkerStep(cfg, st, w, a).value;
    WorkerHistory(cfg, st, w, a);
    WorkerMoves(cfg, st, w, a);
    ToldLater(st, st');
    if a.Publish? && a.delivered {
      var r, next := st.workers[w].record, st.workers[w].next;
      NewlyTold(st', EventFor(r, r.players[next]));
    }
    hide Told, ClaimTx, CompleteTx, Announceable, EventFor, Deliver, FinalizeEntry;
  }

  lemma WorkerPublishes(cfg: Config, st: State, w: nat, a: WorkerAction)
    requires DbInv(cfg.maxAttempts, st.db) && JobsInv(st) && PcsInv(st) && ResultsInv(st)
    requires RunningInv(st) && PublishedInv(st)
    requires WorkerStep(cfg, st, w, a).Some? && Later(st, WorkerStep(cfg, st, w, a).value)
    ensures PublishedInv(WorkerStep(cfg, st, w, a).value)
  {
    var st' := WorkerStep(cfg, st, w, a).value;
    hide DbInv, JobsInv, PcsInv, ResultsInv, RunningInv, WorkerStep;
    WorkerTelling(cfg, st, w, a);
    forall s | s in st'.returned ensures ToldBoth(st', s) || Covered(st', s) {
      if s in st.returned {
        ReturnedPublished(cfg, st, w, a, s);
      } else {
        NewlyCovered(cfg, st, w, a, s);
      }
    }
  }

  /** A worker leaves an older result told or covered: its own entry is dropped only
      once both players were told. */
  lemma ReturnedPublished(cfg: Config, st: State, w: nat, a: WorkerAction, s: Uuid)
    requires DbInv(cfg.maxAttempts, st.db) && PcsInv(st) && ResultsInv(st) && PublishedInv(st)
    requires WorkerStep(cfg, st, w, a).Some? && Later(st, WorkerStep(cfg, st, w, a).value) && s in st.returned
    ensures s in WorkerStep(cfg, st, w, a).value.returned
    ensures ToldBoth(WorkerStep(cfg, st, w, a).value, s) || Covered(WorkerStep(cfg, st, w, a).value, s)
  {
    hide DbInv, PcsInv, ResultsInv, WorkerStep, ToldBoth, Covered, Carries, PublishedInv, Spares, EntryOf, Later;
    var st', d := WorkerStep(cfg, st, w, a).value, EntryOf(st, w);
    PublishedOf(st, s);
    ReturnedLater(st, st', s);
    WorkerMoves(cfg, st, w, a);
    WorkerSpares(cfg, st, w, a);
    if Carries(st, s, d) {
      CarriedIsJob(st, s, d);
      if st'.workers[w].Discarding? {
        DropReason(cfg, st, w, a, s);
      } else {
        KeptCarries(cfg, st, w, a, s);
        SomeCovers(st', s, d);
      }
    } else {
      OtherCovers(st, st', d, s);
    }
  }

  lemma PublishedOf(st: State, s: Uuid)
    requires PublishedInv(st) && s in st.returned
    ensures ToldBoth(st, s) || Covered(st, s)
  {
    hide ToldBoth, Covered;
  }

  lemma ReturnedLater(st: State, st': State, s: Uuid)
    requires Later(st, st') && s in st.returned
    ensures s in st'.returned && st'.returned[s] == st.returned[s]
  {
  }

  lemma CarriedIsJob(st: State, s: Uuid, e: nat)
    requires Carries(st, s, e)
    ensures e in st.jobs && st.jobs[e] == JobFor(s)
  {
  }

  lemma SomeCovers(st: State, s: Uuid, e: nat)
    requires Carries(st, s, e)
    ensures Covered(st, s)
  {
  }

  /** What is told or carried by another entry than `d` stays so. */
  lemma OtherCovers(st: State, st': State, d: nat, s: Uuid)
    requires Later(st, st') && Spares(st, st', d) && s in st.returned && !Carries(st, s, d)
    requires ToldBoth(st, s) || Covered(st, s)
    ensures s in st'.returned && (ToldBoth(st', s) || Covered(st', s))
  {
    ToldLater(st, st');
    if Covered(st, s) {
      var e :| Carries(st, s, e);
      assert Carries(st', s, e);
    }
  }

  /** Unless it decides to drop its entry, a worker leaves it in the stream. */
  lemma KeptCarries(cfg: Config, st: State, w: nat, a: WorkerAction, s: Uuid)
    requires WorkerStep(cfg, st, w, a).Some? && Carries(st, s, EntryOf(st, w))
    requires !WorkerStep(cfg, st, w, a).value.workers[w].Discarding?
    ensures Carries(WorkerStep(cfg, st, w, a).value, s, EntryOf(st, w))
  {
    WorkerEntries(cfg, st, w, a);
    WorkerMoves(cfg, st, w, a);
    hide WorkerStep;
  }

  /** A new result was running, so the entry that backed it is there. */
  lemma NewlyCovered(cfg: Config, st: State, w: nat, a: WorkerAction, s: Uuid)
    requires DbInv(cfg.maxAttempts, st.db) && JobsInv(st) && PcsInv(st) && RunningInv(st)
    requires WorkerStep(cfg, st, w, a).Some? && s in WorkerStep(cfg, st, w, a).value.returned && s !in st.returned
    ensures Covered(WorkerStep(cfg, st, w, a).value, s)
  {
    NewlyReturned(cfg, st, w, a, s);
    var e :| Safe(st, s, e);
    hide DbInv, JobsInv, PcsInv, RunningInv, WorkerStep, Safe;
    WorkerSafe(cfg, st, w, a, s, e);
    SafeCarries(WorkerStep(cfg, st, w, a).value, s, e);
    SomeCovers(WorkerStep(cfg, st, w, a).value, s, e);
  }

  /** A result is new only when its running submission is finished. */
  lemma NewlyReturned(cfg: Config, st: State, w: nat, a: WorkerAction, s: Uuid)
    requires DbInv(cfg.maxAttempts, st.db) && PcsInv(st) && WorkerStep(cfg, st, w, a).Some?
    requires s in WorkerStep(cfg, st, w, a).value.returned && s !in st.returned
    ensures RunningSub(st.db, s)
  {
    WorkerHistory(cfg, st, w, a);
    assert a.Finish? && w in st.workers && WorkerFits(st, st.workers[w]);
    hide DbInv, PcsInv, Announceable, EventFor;
  }

  lemma KeepsPublished(st: State, st': State, d: nat, s: Uuid)
    requires PublishedInv(st) && Later(st, st') && Spares(st, st', d) && s in st.returned
    requires d !in st.jobs || st.jobs[d] != JobFor(s) || Doomed(st, d) || Carries(st', s, d)
    ensures s in st'.returned && (ToldBoth(st', s) || Covered(st', s))
  {
    ToldLater(st, st');
    if Covered(st, s) {
      SparedStaysCovered(st, st', d, s);
    }
  }

  /** The entry a sweeping step may drop, 0 when it drops none. */
  function DroppedBy(st: State, st': State, r: nat): nat {
    match ReaperAt(st', r)
    case Removing(e) => e
    case Remarking(e, _) => e
    case _ => match ReaperAt(st, r) case Removing(e) => e case _ => 0
  }

  lemma SweeperSpares(cfg: Config, st: State, r: nat, a: SweepAction)
    requires JobsInv(st) && SweeperStep(cfg, st, r, a).Some?
    ensures var st' := SweeperStep(cfg, st, r, a).value; Spares(st, st', DroppedBy(st, st', r))
  {
    var st' := SweeperStep(cfg, st, r, a).value;
    var d := DroppedBy(st, st', r);
    SweeperJobs(cfg, st, r, a);
    SweeperHistory(cfg, st, r, a);
    SweeperEntries(cfg, st, r, a);
    hide SweeperStep;
    forall e | Doomed(st', e) && e != d ensures Doomed(st, e) {
      if v :| v in st'.workers && st'.workers[v] == Discarding(e) {
        assert v in st.workers && st.workers[v] == Discarding(e);
      } else if q :| q in st'.reapers && st'.reapers[q] == Removing(e) {
        assert q in st.reapers && st.reapers[q] == Removing(e);
      } else {
        var q, s :| q in st'.reapers && st'.reapers[q] == Remarking(e, s);
        assert q in st.reapers && st.reapers[q] == Remarking(e, s);
      }
    }
  }

  lemma SweeperEntries(cfg: Config, st: State, r: nat, a: SweepAction)
    requires SweeperStep(cfg, st, r, a).Some?
    ensures var st' := SweeperStep(cfg, st, r, a).value;
      st.stream.entries.Keys - {DroppedBy(st, st', r)} <= st'.stream.entries.Keys
  {
  }

  /** The reaper drops an entry only for an unknown job, or after replacing it. */
  lemma ReplacedFirst(cfg: Config, st: State, r: nat, a: SweepAction, s: Uuid)
    requires JobsInv(st) && PcsInv(st) && ResultsInv(st) && SweeperStep(cfg, st, r, a).Some? && s in st.returned
    ensures var st' := SweeperStep(cfg, st, r, a).value;
            var d := DroppedBy(st, st', r);
      d !in st.jobs || st.jobs[d] != JobFor(s) || Doomed(st, d) || Covered(st', s)
  {
    hide JobsInv, PcsInv, ResultsInv, Covered;
    match a {
      case Replace => ReplaceIsFirst(st, r, s);
      case Check => CheckKeepsKnown(st, r, s);
      case Remark => RemarkIsLate(st, r);
      case _ => NilIsNoJob(st);
    }
  }

  lemma NilIsNoJob(st: State)
    requires JobsInv(st)
    ensures 0 !in st.jobs
  {
  }

  lemma ReplaceIsFirst(st: State, r: nat, s: Uuid)
    requires JobsInv(st) && PcsInv(st) && ReplaceStep(st, r).Some?
    ensures var st' := ReplaceStep(st, r).value;
            var d := DroppedBy(st, st', r);
      d !in st.jobs || st.jobs[d] != JobFor(s) || Covered(st', s)
  {
    ReplacementCovers(st, r);
    assert ReaperFits(st, st.reapers[r]);
    hide JobsInv, PcsInv, Covered;
  }

  lemma CheckKeepsKnown(st: State, r: nat, s: Uuid)
    requires JobsInv(st) && PcsInv(st) && ResultsInv(st) && CheckStep(st, r).Some? && s in st.returned
    ensures var d := DroppedBy(st, CheckStep(st, r).value, r); d !in st.jobs || st.jobs[d] != JobFor(s)
  {
    assert ReaperFits(st, st.reapers[r]) && RecordFits(st.db, st.returned[s]) && st.returned[s].sub == s;
    NilIsNoJob(st);
    hide JobsInv, PcsInv, ResultsInv;
  }

  lemma RemarkIsLate(st: State, r: nat)
    requires RemarkStep(st, r).Some?
    ensures Doomed(st, DroppedBy(st, RemarkStep(st, r).value, r))
  {
    hide Dispatch.MarkTx;
  }

  lemma ReplacementCovers(st: State, r: nat)
    requires JobsInv(st) && PcsInv(st) && ReplaceStep(st, r).Some?
    ensures Covered(ReplaceStep(st, r).value, st.reapers[r].sub)
  {
    var st', e := ReplaceStep(st, r).value, st.stream.next;
    assert e !in st.jobs;
    assert ReaperFits(st, st.reapers[r]);
    assert !Doomed(st', e) by {
      forall v | v in st'.workers ensures st'.workers[v] != Discarding(e) { assert WorkerFits(st, st.workers[v]); }
      forall q | q in st'.reapers
        ensures st'.reapers[q] != Removing(e) && !(st'.reapers[q].Remarking? && st'.reapers[q].entry == e)
      {
        assert q in st.reapers && ReaperFits(st, st.reapers[q]);
      }
    }
    assert Carries(st', st.reapers[r].sub, e);
  }

  lemma SweeperPublishes(cfg: Config, st: State, r: nat, a: SweepAction)
    requires JobsInv(st) && PcsInv(st) && ResultsInv(st) && PublishedInv(st)
    requires SweeperStep(cfg, st, r, a).Some? && Later(st, SweeperStep(cfg, st, r, a).value)
    ensures PublishedInv(SweeperStep(cfg, st, r, a).value)
  {
    hide SweeperStep, JobsInv, PcsInv, ResultsInv, Covered, Spares, DroppedBy;
    var st' := SweeperStep(cfg, st, r, a).value;
    SweeperHistory(cfg, st, r, a);
    SweeperSpares(cfg, st, r, a);
    ToldLater(st, st');
    forall s | s in st'.returned ensures ToldBoth(st', s) || Covered(st', s) {
      ReplacedFirst(cfg, st, r, a, s);
      if !Covered(st', s) {
        KeepsPublished(st, st', DroppedBy(st, st', r), s);
      }
    }
    hide Told;
  }

  /** Steps of the tables, the dispatchers and the clock drop nothing. */
  lemma OthersPublish(cfg: Config, st: State, a: Action)
    requires JobsInv(st) && PublishedInv(st) && Step(cfg, st, a).Some? && !a.Work? && !a.Reap?
    requires Later(st, Step(cfg, st, a).value)
    ensures PublishedInv(Step(cfg, st, a).value)
  {
    hide JobsInv, PublishedInv, Later;
    OthersDropNothing(cfg, st, a);
    NilIsNoJob(st);
    hide Step, SameHands;
    HandsPublish(st, Step(cfg, st, a).value);
  }

  ghost predicate SameHands(st: State, st': State) {
    && st'.workers == st.workers && st'.reapers == st.reapers && st'.returned == st.returned
    && st.stream.entries.Keys <= st'.stream.entries.Keys && st.events <= st'.events
  }

  lemma OthersDropNothing(cfg: Config, st: State, a: Action)
    requires Step(cfg, st, a).Some? && !a.Work? && !a.Reap?
    ensures SameHands(st, Step(cfg, st, a).value)
  {
    if a.Table? { TableHistory(cfg, st, a.what); }
    hide TableStep, Dispatch.MarkTx;
  }

  lemma HandsPublish(st: State, st': State)
    requires PublishedInv(st) && SameHands(st, st') && Later(st, st') && 0 !in st.jobs
    ensures PublishedInv(st')
  {
    ToldLater(st, st');
    assert Spares(st, st', 0);
    hide Told;
    forall s | s in st'.returned ensures ToldBoth(st', s) || Covered(st', s) {
      KeepsPublished(st, st', 0, s);
    }
  }

  lemma StepPublishes(cfg: Config, st: State, a: Action)
    requires ValidConfig(cfg) && SafetyInv(cfg, st) && RunningInv(st) && PublishedInv(st)
    requires BackedStep(cfg, st, a) && Step(cfg, st, a).Some?
    ensures RunningInv(Step(cfg, st, a).value) && PublishedInv(Step(cfg, st, a).value)
  {
    StepLater(cfg, st, a);
    assert DbInv(cfg.maxAttempts, st.db) && JobsInv(st) && PcsInv(st) && ResultsInv(st);
    hide SafetyInv, DbInv, JobsInv, PcsInv, ResultsInv, RunningInv, PublishedInv, Later, BackedStep;
    StepRunning(cfg, st, a);
    match a {
      case Work(w, t) => WorkerPublishes(cfg, st, w, t);
      case Reap(r, t) => SweeperPublishes(cfg, st, r, t);
      case _ => OthersPublish(cfg, st, a);
    }
  }

  lemma {:induction false} RunPublishes(cfg: Config, st: State, acts: seq<Action>)
    requires ValidConfig(cfg) && SafetyInv(cfg, st) && RunningInv(st) && PublishedInv(st)
    requires BackedRun(cfg, st, acts) && Run(cfg, st, acts).Some?
    ensures SafetyInv(cfg, Run(cfg, st, acts).value)
    ensures RunningInv(Run(cfg, st, acts).value) && PublishedInv(Run(cfg, st, acts).value)
    decreases |acts|
  {
    hide Step, SafetyInv, RunningInv, PublishedInv, BackedStep;
    if acts != [] {
      StepKeeps(cfg, st, acts[0]);
      StepPublishes(cfg, st, acts[0]);
      RunPublishes(cfg, Step(cfg, st, acts[0]).value, acts[1..]);
    }
  }

  lemma InitPublished(cfg: Config, init: State)
    requires Init(init)
    ensures RunningInv(init) && PublishedInv(init)
  {
  }

  /** Every submission finished by `Complete` has had its result delivered to both
      players, or still has an entry in the stream that no one is about to remove. */
  lemma AtLeastOnce(cfg: Config, init: State, acts: seq<Action>, st: State, s: Uuid)
    requires Reaches(cfg, init, acts, st) && BackedRun(cfg, init, acts) && s in st.returned
    ensures (forall p | p in st.returned[s].players ::
               exists ev :: ev in st.events && ev.record.sub == s && ev.recipient == p)
         || (exists e :: e in st.stream.entries && st.stream.entries[e] == JobFor(s) && !Doomed(st, e))
  {
    InitSafe(cfg, init);
    InitPublished(cfg, init);
    RunPublishes(cfg, init, acts);
    assert JobsInv(st) && (ToldBoth(st, s) || Covered(st, s));
    hide SafetyInv, RunningInv, PublishedInv, JobsInv, Run, BackedRun, Doomed;
    if Covered(st, s) {
      var e :| Carries(st, s, e);
      assert st.stream.entries[e] == JobFor(s) by { EntriesAreJobs(st, e); }
    } else {
      forall p | p in st.returned[s].players
        ensures exists ev :: ev in st.events && ev.record.sub == s && ev.recipient == p
      {
        assert Told(st, s, p);
      }
    }
  }

  lemma EntriesAreJobs(st: State, e: nat)
    requires JobsInv(st) && e in st.stream.entries
    ensures e in st.jobs && st.stream.entries[e] == st.jobs[e]
  {
  }
}
