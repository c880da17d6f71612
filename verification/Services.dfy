// internal/judge/service.go and internal/reaper/stream.go: what one worker does with
// one job, and what one sweep does with the entries it takes over.
module Services {
  import opened Base
  import opened Rows
  import opened JudgeStore
  import opened JudgeResult
  import opened Stream
  import opened Tables
  import opened Workers
  import Marks = Dispatch

  /** What processing a job does to the tables when nothing interferes. */
  function JobTables(db: Db, job: Job, token: Uuid, lease: nat, claimAt: nat, executed: Option<Outcome>,
      finishAt: nat): Db
  {
    if job.Malformed? then db
    else
      var (after, res) := ClaimTx(db, job.sub, token, lease, claimAt);
      if res.Acquired? && executed.Some? && TerminalOf(executed.value, res.claimed.tests).Some? then
        CompleteTx(after, res.claimed, TerminalOf(executed.value, res.claimed.tests).value, finishAt).0
      else after
  }

  /** Jobs that are dropped without announcing anything. */
  predicate Disposable(db: Db, job: Job, token: Uuid, lease: nat, claimAt: nat) {
    job.Malformed? ||
    var res := ClaimTx(db, job.sub, token, lease, claimAt).1;
    res.MissingSubmission? || res.LiveAttempt?
  }

  /** A job whose attempt ran out of lease: left alone, for the reaper to reset. */
  predicate LeftToReaper(db: Db, job: Job, token: Uuid, lease: nat, claimAt: nat) {
    job.JobFor? && ClaimTx(db, job.sub, token, lease, claimAt).1.ExpiredAttempt?
  }

  /** The result a job leads to: the stored one, or the one its completion returns. */
  function JobRecord(db: Db, job: Job, token: Uuid, lease: nat, claimAt: nat, executed: Option<Outcome>,
      finishAt: nat): Option<Record>
  {
    if job.Malformed? then None
    else
      var (after, res) := ClaimTx(db, job.sub, token, lease, claimAt);
      match res
      case AlreadyCompleted(r) => Some(r)
      case Acquired(c) =>
        if executed.None? || TerminalOf(executed.value, c.tests).None? then None
        else
          (match CompleteTx(after, c, TerminalOf(executed.value, c.tests).value, finishAt).1
           case Applied(r) => Some(r)
           case _ => None)
      case _ => None
  }

  /** The invariant kept, nothing undone, and no row but that of `job` touched. */
  ghost predicate OnlyJob(max: nat, db: Db, db': Db, job: Job) {
    && DbInv(max, db') && Evolves(db, db') && db'.subs.Keys == db.subs.Keys
    && forall s | s in db.subs && job != JobFor(s) :: db'.subs[s] == db.subs[s]
  }

  lemma OnlyJobTwice(max: nat, a: Db, b: Db, c: Db, job: Job)
    requires OnlyJob(max, a, b, job) && OnlyJob(max, b, c, job)
    ensures OnlyJob(max, a, c, job)
  {
    EvolvesTransitive(a, b, c);
    hide DbInv, Evolves;
  }

  lemma ClaimIsOnlyJob(max: nat, db: Db, s: Uuid, token: Uuid, lease: nat, now: nat)
    requires DbInv(max, db)
    ensures var (after, res) := ClaimTx(db, s, token, lease, now);
      && OnlyJob(max, db, after, JobFor(s)) && (res.Acquired? ==> ClaimFits(after, res.claimed) && res.claimed.sub == s)
  {
    ClaimKeeps(max, db, s, token, lease, now);
    ClaimMeaning(max, db, s, token, lease, now);
    ClaimRows(db, s, token, lease, now);
    hide ClaimTx, DbInv, Evolves, ClaimFits;
  }

  lemma ClaimRows(db: Db, s: Uuid, token: Uuid, lease: nat, now: nat)
    ensures var after := ClaimTx(db, s, token, lease, now).0;
      after.subs.Keys == db.subs.Keys && forall u | u in db.subs && u != s :: after.subs[u] == db.subs[u]
  {
  }

  lemma CompleteIsOnlyJob(max: nat, db: Db, c: Claimed, r: Terminal, now: nat)
    requires DbInv(max, db) && ClaimFits(db, c) && ValidTerminal(r, c.tests)
    ensures OnlyJob(max, db, CompleteTx(db, c, r, now).0, JobFor(c.sub))
  {
    CompleteKeeps(max, db, c, r, now);
    CompleteMeaning(max, db, c, r, now);
    hide CompleteTx, DbInv, Evolves, ClaimFits, ValidTerminal, Owns;
  }

  /** Processing a job keeps the table invariant and touches no other submission. */
  lemma JobKeeps(max: nat, db: Db, job: Job, token: Uuid, lease: nat, claimAt: nat, executed: Option<Outcome>,
      finishAt: nat)
    requires DbInv(max, db)
    ensures OnlyJob(max, db, JobTables(db, job, token, lease, claimAt, executed, finishAt), job)
  {
    hide DbInv, Evolves, ClaimTx, CompleteTx, ClaimFits, ValidTerminal, Mapped;
    if job.Malformed? {
      EvolvesReflexive(db);
    } else {
      ClaimIsOnlyJob(max, db, job.sub, token, lease, claimAt);
      var (after, res) := ClaimTx(db, job.sub, token, lease, claimAt);
      hide OnlyJob;
      if res.Acquired? && executed.Some? && TerminalOf(executed.value, res.claimed.tests).Some? {
        var r := TerminalOf(executed.value, res.claimed.tests).value;
        DbInvOf(max, db, after, job);
        CompleteIsOnlyJob(max, after, res.claimed, r, finishAt);
        OnlyJobTwice(max, db, after, CompleteTx(after, res.claimed, r, finishAt).0, job);
      }
    }
  }

  lemma DbInvOf(max: nat, db: Db, db': Db, job: Job)
    requires OnlyJob(max, db, db', job)
    ensures DbInv(max, db')
  {
    hide DbInv, Evolves;
  }

  /** A result is what the finished row of the job's own submission stands for, and
      can be announced; a job without one that is dropped or left alone wrote nothing. */
  lemma JobResult(max: nat, db: Db, job: Job, token: Uuid, lease: nat, claimAt: nat, executed: Option<Outcome>,
      finishAt: nat)
    requires DbInv(max, db)
    ensures var db' := JobTables(db, job, token, lease, claimAt, executed, finishAt);
      var record := JobRecord(db, job, token, lease, claimAt, executed, finishAt);
      && (record.Some? ==> job == JobFor(record.value.sub) && RecordFits(db', record.value))
      && (record.Some? ==> BuildEvents(record.value).Some?)
      && (Disposable(db, job, token, lease, claimAt) || LeftToReaper(db, job, token, lease, claimAt)
          ==> record.None? && db' == db)
  {
    hide ClaimTx, CompleteTx, DbInv, Evolves, OnlyJob, RecordFits, ClaimFits, ValidTerminal, Mapped, Announceable;
    JobKeeps(max, db, job, token, lease, claimAt, executed, finishAt);
    DbInvOf(max, db, JobTables(db, job, token, lease, claimAt, executed, finishAt), job);
    var db' := JobTables(db, job, token, lease, claimAt, executed, finishAt);
    var record := JobRecord(db, job, token, lease, claimAt, executed, finishAt);
    if job.JobFor? {
      ClaimedFits(max, db, job.sub, token, lease, claimAt);
      var (after, res) := ClaimTx(db, job.sub, token, lease, claimAt);
      if record.Some? {
        if res.Acquired? {
          AppliedFits(max, after, res.claimed, TerminalOf(executed.value, res.claimed.tests).value, finishAt);
        }
        StoredRecordsAnnounce(max, db', record.value);
      }
    }
  }

  /** A job of a pending submission whose tests decode stores its outcome: the verdict,
      failure kind and passed tests are those of the outcome, and the announced record
      tells them. */
  lemma JobStores(max: nat, db: Db, s: Uuid, token: Uuid, lease: nat, claimAt: nat, o: Outcome, finishAt: nat)
    requires DbInv(max, db) && token != NIL && lease > 0 && s in db.subs && db.subs[s].status == Pending
    requires var problem := db.problems[db.matches[db.subs[s].matchId].problem];
      problem.wellFormed && 0 < problem.tests && o.testsPassed <= problem.tests
      && (o.kind == OutcomePass ==> o.testsPassed == problem.tests)
    ensures var db' := JobTables(db, JobFor(s), token, lease, claimAt, Some(o), finishAt);
      var record := JobRecord(db, JobFor(s), token, lease, claimAt, Some(o), finishAt);
      && s in db'.subs && db'.subs[s].status == Completed && db'.subs[s].attempts == db.subs[s].attempts + 1
      && db'.subs[s].finishedAt == Some(finishAt) && db'.subs[s].verdict.Some?
      && StoredAs(o, Terminal(db'.subs[s].verdict.value, db'.subs[s].failure, db'.subs[s].passed))
      && record.Some? && TellsRow(db', s, record.value)
  {
    hide DbInv, ClaimTx, CompleteTx, ClaimFits, Owns, ValidTerminal, Mapped, TellsRow, StoredAs, Evolves;
    ClaimSucceedsIff(max, db, s, token, lease, claimAt);
    ClaimParts(max, db, s, token, lease, claimAt);
    var (after, res) := ClaimTx(db, s, token, lease, claimAt);
    ClaimKeeps(max, db, s, token, lease, claimAt);
    TerminalMeaning(o, res.claimed.tests);
    var r := TerminalOf(o, res.claimed.tests).value;
    CompleteMeaning(max, after, res.claimed, r, finishAt);
  }

  /** A job of a completed submission whose tests decode changes nothing and announces
      what its row and its match say. */
  lemma JobAnnouncesStored(max: nat, db: Db, s: Uuid, token: Uuid, lease: nat, claimAt: nat,
      executed: Option<Outcome>, finishAt: nat)
    requires DbInv(max, db) && token != NIL && lease > 0 && s in db.subs && db.subs[s].status == Completed
    requires var problem := db.problems[db.matches[db.subs[s].matchId].problem];
      problem.wellFormed && 0 < problem.tests
    ensures JobTables(db, JobFor(s), token, lease, claimAt, executed, finishAt) == db
    ensures var record := JobRecord(db, JobFor(s), token, lease, claimAt, executed, finishAt);
      record.Some? && TellsRow(db, s, record.value)
  {
    hide DbInv, ClaimTx, CompleteTx, TellsRow;
    ClaimSucceedsIff(max, db, s, token, lease, claimAt);
    StoredParts(max, db, s, token, lease, claimAt);
  }

  lemma StoredParts(max: nat, db: Db, s: Uuid, token: Uuid, lease: nat, now: nat)
    requires DbInv(max, db) && ClaimTx(db, s, token, lease, now).1.AlreadyCompleted?
    ensures var (after, res) := ClaimTx(db, s, token, lease, now); after == db && TellsRow(db, s, res.record)
  {
    ClaimMeaning(max, db, s, token, lease, now);
  }

  lemma ClaimParts(max: nat, db: Db, s: Uuid, token: Uuid, lease: nat, now: nat)
    requires DbInv(max, db) && ClaimTx(db, s, token, lease, now).1.Acquired?
    ensures var (after, res) := ClaimTx(db, s, token, lease, now);
      && ClaimFits(after, res.claimed) && res.claimed.sub == s && s in after.subs && Owns(after.subs[s], res.claimed)
      && s in db.subs && after.subs[s].attempts == db.subs[s].attempts + 1
      && res.claimed.tests == db.problems[db.matches[db.subs[s].matchId].problem].tests
  {
    ClaimMeaning(max, db, s, token, lease, now);
  }

  /** What a claim hands out fits the tables it leaves. */
  lemma ClaimedFits(max: nat, db: Db, s: Uuid, token: Uuid, lease: nat, now: nat)
    requires DbInv(max, db)
    ensures var (after, res) := ClaimTx(db, s, token, lease, now);
      && DbInv(max, after) && (!res.Acquired? ==> after == db)
      && (res.Acquired? ==> ClaimFits(after, res.claimed) && res.claimed.sub == s)
      && (res.AlreadyCompleted? ==> RecordFits(db, res.record) && res.record.sub == s)
  {
    ClaimMeaning(max, db, s, token, lease, now);
    ClaimKeeps(max, db, s, token, lease, now);
    var res := ClaimTx(db, s, token, lease, now).1;
    hide ClaimTx, ClaimFits, Evolves;
    if res.AlreadyCompleted? {
      RebuiltFits(max, db, s, res.record);
    }
  }

  lemma AppliedFits(max: nat, db: Db, c: Claimed, r: Terminal, now: nat)
    requires DbInv(max, db) && ClaimFits(db, c) && ValidTerminal(r, c.tests) && CompleteTx(db, c, r, now).1.Applied?
    ensures RecordFits(CompleteTx(db, c, r, now).0, CompleteTx(db, c, r, now).1.record)
    ensures CompleteTx(db, c, r, now).1.record.sub == c.sub
  {
    hide DbInv, Evolves;
    CompleteMeaning(max, db, c, r, now);
    CompleteKeeps(max, db, c, r, now);
    CompletedRow(db, c, r, now);
    hide CompleteTx;
    RebuiltFits(max, CompleteTx(db, c, r, now).0, c.sub, CompleteTx(db, c, r, now).1.record);
  }

  lemma CompletedRow(db: Db, c: Claimed, r: Terminal, now: nat)
    requires ClaimFits(db, c) && CompleteTx(db, c, r, now).1.Applied?
    ensures var db' := CompleteTx(db, c, r, now).0;
      && c.sub in db'.subs && db'.subs[c.sub].status == Completed && db'.subs[c.sub].verdict.Some?
      && db'.subs[c.sub].matchId == c.matchId && c.matchId in db'.matches
      && db'.matches[c.matchId].problem == db.matches[c.matchId].problem && db'.problems == db.problems
  {
  }

  /** The event for player `i`, unless its publish call failed before delivering. */
  function Reaching(r: Record, i: nat, publish: nat -> Fault): seq<Event>
    requires i < |r.players|
  {
    if publish(i) == FailsBefore then [] else [EventFor(r, r.players[i])]
  }

  predicate Sent(r: Record, publish: nat -> Fault) {
    BuildEvents(r).Some? && publish(0) == NoFault && publish(1) == NoFault
  }

  predicate AllDelivered(r: Record, channel: seq<Event>) {
    BuildEvents(r).Some? && forall i | 0 <= i < |BuildEvents(r).value| :: BuildEvents(r).value[i] in channel
  }

  class JudgeService {
    const db: Database
    const queue: JudgeQueue
    const lease: nat
    var channel: seq<Event>          // events that reached their recipients' channels

    constructor (db: Database, queue: JudgeQueue, lease: nat)
      ensures this.db == db && this.queue == queue && this.lease == lease && channel == []
    {
      this.db, this.queue, this.lease, channel := db, queue, lease, [];
    }

    /** `publishAndFinalize`: every event is attempted, and the entry is finalised only
        when all attempts succeeded. */
    method PublishAndFinalize(entry: nat, r: Record, publish: nat -> Fault) returns (ok: bool)
      requires queue.Valid()
      modifies this`channel, queue
      ensures queue.Valid()
      ensures channel == if BuildEvents(r).None? then old(channel)
                         else old(channel) + Reaching(r, 0, publish) + Reaching(r, 1, publish)
      ensures (queue.View(), ok)
              == if Sent(r, publish) then FinalizeEntry(old(queue.View()), entry) else (old(queue.View()), false)
      ensures Sent(r, publish) ==> AllDelivered(r, channel)
    {
      var events := BuildResultEvents(r);
      if events.None? {
        return false;
      }
      var errors := 0;
      for i := 0 to |events.value|
        invariant queue.Valid() && queue.View() == old(queue.View())
        invariant channel == old(channel) + (if i > 0 then Reaching(r, 0, publish) else [])
                                          + (if i > 1 then Reaching(r, 1, publish) else [])
        invariant errors == 0 <==> forall k | 0 <= k < i :: publish(k) == NoFault
      {
        if publish(i) != FailsBefore {
          channel := channel + [events.value[i]];
        }
        if publish(i) != NoFault {
          errors := errors + 1;
        }
      }
      if errors > 0 {
        return false;
      }
      ok := queue.Finalize(entry);
    }

    /** `processJob`: claim, execute, complete, announce. The tables change as the two
        transactions say; the entry is finalised exactly if there is nothing to announce
        or every publish call of the result succeeded; success is reported exactly if
        that went through or the attempt is the reaper's to reset. */
    method ProcessJob(entry: nat, job: Job, token: Uuid, claimAt: nat, executed: Option<Outcome>, finishAt: nat,
                      publish: nat -> Fault)
      returns (ok: bool, record: Option<Record>)
      requires queue.Valid()
      modifies this`channel, queue, db`subs, db`matches, db`claims
      ensures queue.Valid()
      ensures channel == if record.None? || BuildEvents(record.value).None? then old(channel)
                         else old(channel) + Reaching(record.value, 0, publish) + Reaching(record.value, 1, publish)
      ensures db.View() == JobTables(old(db.View()), job, token, lease, claimAt, executed, finishAt)
      ensures record == JobRecord(old(db.View()), job, token, lease, claimAt, executed, finishAt)
      ensures (queue.View(), ok)
              == if Disposable(old(db.View()), job, token, lease, claimAt)
                  || (record.Some? && Sent(record.value, publish))
                 then FinalizeEntry(old(queue.View()), entry)
                 else (old(queue.View()), LeftToReaper(old(db.View()), job, token, lease, claimAt))
      ensures record.Some? && Sent(record.value, publish) ==> AllDelivered(record.value, channel)
      // by what the job and its row are: dropped, left to the reaper, or failed
      ensures job.Malformed? || (job.sub != NIL && token != NIL && lease > 0 && job.sub !in old(db.subs))
              ==> record == None && db.View() == old(db.View())
                  && (queue.View(), ok) == FinalizeEntry(old(queue.View()), entry)
      ensures job.JobFor? && Joined(old(db.View()), job.sub) && job.sub != NIL && token != NIL && lease > 0
              && old(db.subs)[job.sub].status == Running
              ==> record == None && db.View() == old(db.View())
                  && (queue.View(), ok)
                     == if old(db.subs)[job.sub].token.Some? && old(db.subs)[job.sub].lease.Some?
                           && claimAt < old(db.subs)[job.sub].lease.value
                        then FinalizeEntry(old(queue.View()), entry)
                        else (old(queue.View()), true)
      ensures job.JobFor? && Joined(old(db.View()), job.sub) && old(db.subs)[job.sub].status == Pending
              && executed == None
              ==> record == None && queue.View() == old(queue.View()) && !ok
      ensures job.JobFor? && (job.sub == NIL || token == NIL || lease == 0)
              ==> record == None && db.View() == old(db.View()) && queue.View() == old(queue.View()) && !ok
    {
      record := None;
      if job.Malformed? {
        ok := queue.Finalize(entry);
        return;
      }
      var claim := db.Claim(job.sub, token, lease, claimAt);
      match claim {
        case MissingSubmission =>
          ok := queue.Finalize(entry);
        case LiveAttempt(_) =>
          ok := queue.Finalize(entry);
        case ExpiredAttempt =>
          ok := true;
        case ClaimError =>
          ok := false;
        case AlreadyCompleted(r) =>
          record := Some(r);
          ok := PublishAndFinalize(entry, r, publish);
        case Acquired(claimed) =>
          if executed.None? {
            return false, None;
          }
          var terminal := TerminalOf(executed.value, claimed.tests);
          if terminal.None? {
            return false, None;
          }
          var completion := db.Complete(claimed, terminal.value, finishAt);
          if !completion.Applied? {
            return false, None;
          }
          record := Some(completion.record);
          ok := PublishAndFinalize(entry, completion.record, publish);
      }
    }
  }

  // ---------------------------------------------------------------------- stream sweep

  lemma AddCarries(st: Stream, sub: Uuid)
    requires StreamOk(st)
    ensures Add(st, JobFor(sub)).pel == st.pel
    ensures st.next !in st.entries && Add(st, JobFor(sub)).entries == st.entries[st.next := JobFor(sub)]
    ensures Carried(Add(st, JobFor(sub)), sub)
    ensures forall s | Carried(st, s) :: Carried(Add(st, JobFor(sub)), s)
    ensures forall e | e in st.entries ::
        e in Add(st, JobFor(sub)).entries && Add(st, JobFor(sub)).entries[e] == st.entries[e]
  {
    var st' := Add(st, JobFor(sub));
    assert st'.entries[st.next] == JobFor(sub);
    forall s | Carried(st, s) ensures Carried(st', s) {
      var e :| e in st.entries && st.entries[e] == JobFor(s);
      assert st'.entries[e] == JobFor(s);
    }
  }

  /** Removing one entry only un-carries its own submission, and not even that when
      another entry carries it too. */
  lemma FinalizeCarries(st: Stream, e: nat, s: Uuid)
    requires Carried(st, s)
    requires e !in st.entries || st.entries[e] != JobFor(s)
        || exists o :: o in st.entries && o != e && st.entries[o] == JobFor(s)
    ensures Carried(FinalizeEntry(st, e).0, s)
  {
    var o :| o in st.entries && st.entries[o] == JobFor(s)
        && (o != e || e !in st.entries || st.entries[e] != JobFor(s));
    assert FinalizeEntry(st, e).0.entries[o] == JobFor(s);
  }

  lemma FinalizeSpares(st: Stream, e: nat)
    ensures forall o | o in st.entries && o != e ::
        o in FinalizeEntry(st, e).0.entries && FinalizeEntry(st, e).0.entries[o] == st.entries[o]
    ensures forall o | o in st.pel && o != e :: o in FinalizeEntry(st, e).0.pel
    ensures e in st.pel ==> FinalizeEntry(st, e).1
  {
  }

  /** The stream after one reclaimed entry has been handled. */
  function Handled(st: Stream, db: Db, entry: nat, job: Job, xadd: Fault, mark: Fault): Stream {
    if job.Malformed? || job.sub !in db.subs then FinalizeEntry(st, entry).0
    else if db.subs[job.sub].status == Running || job.sub == NIL || xadd == FailsBefore then st
    else if xadd == FailsAfter || mark != NoFault then Add(st, job)
    else FinalizeEntry(Add(st, job), entry).0
  }

  /** The tables after it: the replacement's mark, if it got that far. */
  function HandledDb(db: Db, job: Job, xadd: Fault, mark: Fault, now: nat): Db {
    if job.Malformed? || job.sub !in db.subs || db.subs[job.sub].status == Running || job.sub == NIL
       || xadd != NoFault || mark == FailsBefore then db
    else Marks.MarkTx(db, job.sub, now)
  }

  /** Handling a pending entry succeeds unless its replacement failed. */
  predicate Handles(db: Db, job: Job, xadd: Fault, mark: Fault) {
    || job.Malformed? || job.sub !in db.subs || db.subs[job.sub].status == Running
    || (job.sub != NIL && xadd == NoFault && mark == NoFault)
  }

  /** Stream and tables after the first `n` entries of a page. */
  function HandledUpTo(st: Stream, db: Db, jobs: seq<(nat, Job)>, xadd: nat -> Fault, mark: nat -> Fault, now: nat,
      n: nat): (Stream, Db)
    requires n <= |jobs|
  {
    if n == 0 then (st, db)
    else
      var (st', db') := HandledUpTo(st, db, jobs, xadd, mark, now, n - 1);
      var (entry, job) := jobs[n - 1];
      (Handled(st', db', entry, job, xadd(n - 1), mark(n - 1)),
       HandledDb(db', job, xadd(n - 1), mark(n - 1), now))
  }

  /** How many of the first `n` succeed. */
  function Successes(db: Db, jobs: seq<(nat, Job)>, xadd: nat -> Fault, mark: nat -> Fault, n: nat): nat
    requires n <= |jobs|
  {
    if n == 0 then 0
    else Successes(db, jobs, xadd, mark, n - 1) + if Handles(db, jobs[n - 1].1, xadd(n - 1), mark(n - 1)) then 1 else 0
  }

  /** The first failure of a page is reported, and every other entry counts. */
  ghost predicate SweepReport(db: Db, jobs: seq<(nat, Job)>, xadd: nat -> Fault, mark: nat -> Fault,
      firstErr: Option<nat>, finalized: nat, n: nat)
    requires n <= |jobs|
  {
    && finalized == Successes(db, jobs, xadd, mark, n)
    && (firstErr.None? ==> forall k | 0 <= k < n :: Handles(db, jobs[k].1, xadd(k), mark(k)))
    && (firstErr.Some? ==>
          && firstErr.value < n && !Handles(db, jobs[firstErr.value].1, xadd(firstErr.value), mark(firstErr.value))
          && forall k | 0 <= k < firstErr.value :: Handles(db, jobs[k].1, xadd(k), mark(k)))
  }

  /** Marks change no status, so no answer either. */
  lemma {:induction false} SameStatuses(st: Stream, db: Db, jobs: seq<(nat, Job)>, xadd: nat -> Fault,
      mark: nat -> Fault, now: nat, n: nat)
    requires n <= |jobs|
    ensures var db' := HandledUpTo(st, db, jobs, xadd, mark, now, n).1;
      db'.subs.Keys == db.subs.Keys && forall s | s in db.subs :: db'.subs[s].status == db.subs[s].status
  {
    if n > 0 {
      SameStatuses(st, db, jobs, xadd, mark, now, n - 1);
      hide Handled;
    }
  }

  lemma SameAnswer(a: Db, b: Db, job: Job, xadd: Fault, mark: Fault)
    requires b.subs.Keys == a.subs.Keys && forall s | s in a.subs :: b.subs[s].status == a.subs[s].status
    ensures Handles(a, job, xadd, mark) <==> Handles(b, job, xadd, mark)
  {
  }

  lemma NothingHandled(st: Stream, db: Db, jobs: seq<(nat, Job)>, xadd: nat -> Fault, mark: nat -> Fault, now: nat)
    ensures HandledUpTo(st, db, jobs, xadd, mark, now, 0) == (st, db)
    ensures SweepReport(db, jobs, xadd, mark, None, 0, 0)
  {
  }

  lemma OneHandled(st: Stream, db: Db, jobs: seq<(nat, Job)>, xadd: nat -> Fault, mark: nat -> Fault, now: nat, i: nat)
    requires i < |jobs|
    ensures var (st', db') := HandledUpTo(st, db, jobs, xadd, mark, now, i);
      HandledUpTo(st, db, jobs, xadd, mark, now, i + 1)
      == (Handled(st', db', jobs[i].0, jobs[i].1, xadd(i), mark(i)), HandledDb(db', jobs[i].1, xadd(i), mark(i), now))
  {
  }

  lemma ReportNext(db: Db, jobs: seq<(nat, Job)>, xadd: nat -> Fault, mark: nat -> Fault, firstErr: Option<nat>,
      finalized: nat, i: nat)
    requires i < |jobs| && SweepReport(db, jobs, xadd, mark, firstErr, finalized, i)
    ensures if Handles(db, jobs[i].1, xadd(i), mark(i)) then
              SweepReport(db, jobs, xadd, mark, firstErr, finalized + 1, i + 1)
            else
              SweepReport(db, jobs, xadd, mark, if firstErr.None? then Some(i) else firstErr, finalized, i + 1)
  {
    hide Handles;
  }

  lemma HandledDbIsMark(db: Db, job: Job, xadd: Fault, mark: Fault, now: nat)
    ensures var db' := HandledDb(db, job, xadd, mark, now);
      db' == db || (job.JobFor? && db' == Marks.MarkTx(db, job.sub, now))
  {
  }

  /** What becomes of an entry and its row: dropped, kept, or replaced and then removed;
      when a step of that fails, the old entry stays. */
  lemma HandledMeaning(st: Stream, db: Db, entry: nat, job: Job, xadd: Fault, mark: Fault, now: nat)
    requires entry in st.pel && entry in st.entries && st.entries[entry] == job && StreamOk(st) && NIL !in db.subs
    ensures var st', db' := Handled(st, db, entry, job, xadd, mark), HandledDb(db, job, xadd, mark, now);
      if job.Malformed? || job.sub !in db.subs then
        db' == db && st' == st.(entries := st.entries - {entry}, pel := st.pel - {entry})
      else if db.subs[job.sub].status == Running || xadd == FailsBefore then
        db' == db && st' == st
      else
        && st'.undelivered == st.undelivered + [st.next] && st'.next == st.next + 1
        && (if xadd == NoFault && mark == NoFault then
              st'.entries == st.entries[st.next := job] - {entry} && st'.pel == st.pel - {entry}
            else
              st'.entries == st.entries[st.next := job] && st'.pel == st.pel)
        && db' == if db.subs[job.sub].status == Pending && xadd == NoFault && mark != FailsBefore
                  then db.(subs := db.subs[job.sub := db.subs[job.sub].(enqueued := Some(now))]) else db
  {
  }

  /** The tables differ in nothing but enqueue marks of pending rows whose job the
      stream carried. */
  ghost predicate OnlyMarks(before: Db, after: Db, st: Stream, now: nat) {
    && after == before.(subs := after.subs) && after.subs.Keys == before.subs.Keys
    && forall s | s in before.subs ::
         || after.subs[s] == before.subs[s]
         || (before.subs[s].status == Pending && Carried(st, s)
             && after.subs[s] == before.subs[s].(enqueued := Some(now)))
  }

  lemma NothingMarked(db: Db, st: Stream, now: nat)
    ensures OnlyMarks(db, db, st, now)
  {
  }

  lemma SameEntries(a: Stream, b: Stream)
    requires a.entries == b.entries
    ensures forall s :: Carried(a, s) <==> Carried(b, s)
  {
  }

  /** Finalising an entry leaves every other submission its entry, and its own one too
      if a replacement is there. */
  lemma StillCarried(before: Stream, mid: Stream, subs: set<Uuid>, entry: nat, job: Job)
    requires forall s | s in subs && Carried(before, s) :: Carried(mid, s)
    requires IsEntry(mid.entries, (entry, job), entry)
    requires job.Malformed? || job.sub !in subs || exists o :: o in mid.entries && o != entry && mid.entries[o] == job
    ensures forall s | s in subs && Carried(before, s) :: Carried(FinalizeEntry(mid, entry).0, s)
  {
    forall s | s in subs && Carried(before, s) ensures Carried(FinalizeEntry(mid, entry).0, s) {
      FinalizeCarries(mid, entry, s);
    }
  }

  lemma MarkRows(db: Db, job: Job, now: nat)
    ensures job.JobFor? ==> Marks.MarkTx(db, job.sub, now).subs.Keys == db.subs.Keys
  {
  }

  /** The jobs from `i` on still stand for their entries. */
  ghost predicate Remaining(entries: map<nat, Job>, jobs: seq<(nat, Job)>, page: seq<nat>, i: nat) {
    |jobs| == |page| && forall k | i <= k < |jobs| :: IsEntry(entries, jobs[k], page[k])
  }

  lemma RemainingAfter(before: map<nat, Job>, after: map<nat, Job>, jobs: seq<(nat, Job)>, page: seq<nat>, i: nat)
    requires Remaining(before, jobs, page, i) && NoDuplicates(page) && i < |page|
    requires forall e | e in before && e != page[i] :: e in after && after[e] == before[e]
    ensures Remaining(after, jobs, page, i + 1)
  {
  }

  /** The entries taken over are pending, and each is taken once. */
  lemma PagePending(st: Stream, page: seq<nat>, owner: Consumer, now: nat, minIdle: nat, count: nat)
    requires page == Oldest(IdleKeys(st, minIdle, now), count)
    ensures NoDuplicates(page) && forall k | 0 <= k < |page| :: page[k] in ReassignAll(st, page, owner, now).pel
    ensures ReassignAll(st, page, owner, now).entries == st.entries
  {
    OldestIsPage(IdleKeys(st, minIdle, now), count);
    hide Oldest;
  }

  lemma OthersPending(before: Stream, after: Stream, page: seq<nat>, i: nat)
    requires NoDuplicates(page) && i < |page| && forall k | i <= k < |page| :: page[k] in before.pel
    requires forall e | e in before.pel && e != page[i] :: e in after.pel
    ensures forall k | i + 1 <= k < |page| :: page[k] in after.pel
  {
  }

  /** The jobs of a page, as read. */
  function JobsOf(entries: map<nat, Job>, page: seq<nat>): seq<(nat, Job)> {
    seq(|page|, i requires 0 <= i < |page| => (page[i], if page[i] in entries then entries[page[i]] else Malformed))
  }

  lemma JobsRead(entries: map<nat, Job>, jobs: seq<(nat, Job)>, page: seq<nat>)
    requires Remaining(entries, jobs, page, 0)
    ensures jobs == JobsOf(entries, page)
  {
    forall k | 0 <= k < |page| ensures jobs[k] == JobsOf(entries, page)[k] {
      assert IsEntry(entries, jobs[k], page[k]);
    }
  }

  lemma EntryCarries(st: Stream, job: (nat, Job), e: nat)
    requires IsEntry(st.entries, job, e) && job.1.JobFor?
    ensures Carried(st, job.1.sub)
  {
  }

  lemma MarkIsOnlyMark(before: Db, db: Db, st: Stream, s: Uuid, now: nat)
    requires OnlyMarks(before, db, st, now) && Carried(st, s)
    ensures OnlyMarks(before, Marks.MarkTx(db, s, now), st, now)
  {
    hide Carried;
  }

  class Reaper {
    const db: Database
    const queue: JudgeQueue
    const dispatcher: Dispatcher
    const consumer: Consumer
    const minIdle: nat
    const batchSize: nat

    ghost predicate Wired() {
      dispatcher.db == db && dispatcher.queue == queue
    }

    constructor (dispatcher: Dispatcher, id: nat, minIdle: nat, batchSize: nat)
      ensures Wired() && this.dispatcher == dispatcher && this.minIdle == minIdle && this.batchSize == batchSize
    {
      this.db, this.queue, this.dispatcher := dispatcher.db, dispatcher.queue, dispatcher;
      consumer, this.minIdle, this.batchSize := ReaperConsumer(id), minIdle, batchSize;
    }

    /** `handleReclaimedJob`: an unfinished or finished submission gets a replacement
        entry before the old one goes; a running one keeps the old entry. */
    method HandleReclaimedJob(entry: nat, job: Job, xadd: Fault, mark: Fault, now: nat) returns (ok: bool)
      requires Wired() && queue.Valid() && IsEntry(queue.entries, (entry, job), entry)
      modifies queue, db`subs
      ensures queue.Valid()
      ensures queue.View() == Handled(old(queue.View()), old(db.View()), entry, job, xadd, mark)
      ensures db.View() == HandledDb(old(db.View()), job, xadd, mark, now)
      ensures entry in old(queue.pel) ==> (ok <==> Handles(old(db.View()), job, xadd, mark))
      ensures forall s | s in old(db.subs) && Carried(old(queue.View()), s) :: Carried(queue.View(), s)
      ensures forall e | e in old(queue.entries) && e != entry ::
          e in queue.entries && queue.entries[e] == old(queue.entries)[e]
      ensures db.subs.Keys == old(db.subs).Keys
      ensures forall e | e in old(queue.pel) && e != entry :: e in queue.pel
    {
      hide Marks.MarkTx, Carried, StreamOk, FinalizeEntry, Add;
      ghost var before := queue.View();
      MarkRows(db.View(), job, now);
      if job.Malformed? || job.sub !in db.subs {
        StillCarried(before, before, db.subs.Keys, entry, job);
        FinalizeSpares(before, entry);
        ok := queue.Finalize(entry);
        return;
      }
      if db.subs[job.sub].status == Running {
        return true;
      }
      AddCarries(before, job.sub);
      var dispatched := dispatcher.Dispatch(job.sub, xadd, mark, now);
      if !dispatched {
        return false;
      }
      ghost var mid := queue.View();
      assert mid.entries[before.next] == JobFor(job.sub) && before.next != entry;
      StillCarried(before, mid, db.subs.Keys, entry, job);
      FinalizeSpares(mid, entry);
      ok := queue.Finalize(entry);
    }

    /** `sweepStream`: whatever fails on the way, a submission that had an entry still
        has one, the tables change in enqueue marks only, and the first error is reported
        after the whole page was handled. */
    method SweepStream(xadd: nat -> Fault, mark: nat -> Fault, now: nat) returns (firstErr: Option<nat>, finalized: nat)
      requires Wired() && queue.Valid()
      modifies queue, db`subs
      ensures queue.Valid()
      ensures forall s | s in old(db.subs) && Carried(old(queue.View()), s) :: Carried(queue.View(), s)
      ensures var page := Oldest(IdleKeys(old(queue.View()), minIdle, now), batchSize);
        var jobs := JobsOf(old(queue.entries), page);
        && (queue.View(), db.View())
           == HandledUpTo(ReassignAll(old(queue.View()), page, consumer, now), old(db.View()), jobs, xadd, mark, now,
                          |page|)
        && SweepReport(old(db.View()), jobs, xadd, mark, firstErr, finalized, |page|)
      ensures OnlyMarks(old(db.View()), db.View(), old(queue.View()), now)
    {
      hide Oldest, StreamOk, OnlyMarks, Marks.MarkTx, Carried, Handled, HandledDb, ReassignAll, IdleKeys, NoDuplicates,
        HandledUpTo, SweepReport, Handles, JobsOf;
      var jobs := queue.ReclaimIdle(consumer, minIdle, batchSize, now);
      ghost var page := Oldest(IdleKeys(old(queue.View()), minIdle, now), batchSize);
      ghost var start, db0 := queue.View(), db.View();
      PagePending(old(queue.View()), page, consumer, now, minIdle, batchSize);
      SameEntries(old(queue.View()), queue.View());
      NothingMarked(db.View(), old(queue.View()), now);
      assert Remaining(queue.entries, jobs, page, 0);
      JobsRead(queue.entries, jobs, page);
      NothingHandled(start, db0, jobs, xadd, mark, now);
      firstErr, finalized := None, 0;
      for i := 0 to |jobs|
        invariant queue.Valid() && db.subs.Keys == old(db.subs).Keys
        invariant (queue.View(), db.View()) == HandledUpTo(start, db0, jobs, xadd, mark, now, i)
        invariant SweepReport(db0, jobs, xadd, mark, firstErr, finalized, i)
        invariant forall k | i <= k < |page| :: page[k] in queue.pel
        invariant Remaining(queue.entries, jobs, page, i) && Remaining(old(queue.entries), jobs, page, i)
        invariant forall s | s in old(db.subs) && Carried(old(queue.View()), s) :: Carried(queue.View(), s)
        invariant OnlyMarks(old(db.View()), db.View(), old(queue.View()), now)
      {
        assert IsEntry(queue.entries, jobs[i], page[i]) && IsEntry(old(queue.entries), jobs[i], page[i]);
        if jobs[i].1.JobFor? {
          EntryCarries(old(queue.View()), jobs[i], page[i]);
          MarkIsOnlyMark(old(db.View()), db.View(), old(queue.View()), jobs[i].1.sub, now);
        }
        ghost var entries, before := queue.entries, queue.View();
        hide Remaining;
        HandledDbIsMark(db.View(), jobs[i].1, xadd(i), mark(i), now);
        SameStatuses(start, db0, jobs, xadd, mark, now, i);
        SameAnswer(db0, db.View(), jobs[i].1, xadd(i), mark(i));
        OneHandled(start, db0, jobs, xadd, mark, now, i);
        ReportNext(db0, jobs, xadd, mark, firstErr, finalized, i);
        var ok := HandleReclaimedJob(jobs[i].0, jobs[i].1, xadd(i), mark(i), now);
        OthersPending(before, queue.View(), page, i);
        RemainingAfter(entries, queue.entries, jobs, page, i);
        RemainingAfter(old(queue.entries), old(queue.entries), jobs, page, i);
        if !ok {
          if firstErr.None? {
            firstErr := Some(i);
          }
          continue;
        }
        finalized := finalized + 1;
      }
    }
  }
}
