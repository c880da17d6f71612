// Why a worker has to claim while it still has its entry: one run in which a worker
// sits on an entry for longer than StreamMinIdle, a reaper replaces and removes it,
// and the result the worker then stores is announced to nobody, with no entry left
// that could ever announce it.
module UntimelyRun {
  import opened Base
  import opened Rows
  import opened RowUpdates
  import opened Submissions
  import opened JudgeStore
  import opened JudgeResult
  import opened Stream
  import opened Protocol
  import opened ProtocolTheorems
  import opened ProtocolPublication
  import Dispatch
  import MatchCreation
  import Recovery

  const CFG := Config(3, 10, 20, 5, 1, 1, 100)
  const REQ := Request(1, 5, 8, "python", "code")
  const JOB := JobFor(9)

  const EMPTY_DB := Db({1, 2}, map[7 := Problem(1, true, 0)], map[], map[], map[])
  const START := State(EMPTY_DB, EmptyStream, 0, map[], map[], map[], map[], {}, map[], {}, [], [])

  const GAME := Match(7, Active, None, 100, [1, 2])
  const OPENED := EMPTY_DB.(matches := map[5 := GAME], claims := map[1 := 5, 2 := 5])
  const PENDING := NewRow(REQ, 0)
  const REMARKED := PENDING.(enqueued := Some(20))
  const RUNNING := JudgeStore.Started(REMARKED, 1, 10, 20)
  const DONE := Judged(RUNNING, PASS, 20)
  const PASS := Terminal(VPass, None, 1)
  const CLAIMED := Claimed(9, 5, 1, 7, 8, "python", "code", 1, [1, 2], 1)
  const RECORD := Record(9, 5, 1, 8, [1, 2], VPass, None, 1, 1, Some(1))

  function WithRow(row: Submission): Db {
    OPENED.(subs := map[9 := row])
  }

  /** A submission admitted and dispatched. */
  const QUEUED := State(WithRow(PENDING), Stream(map[1 := JOB], [1], map[], 2), 0,
                        map[], map[0 := Enqueued(9)], map[], map[1 := JOB], {}, map[], {}, [], [(REQ, 9)])

  /** The worker has read the entry and done nothing for twenty units of time. */
  const STALLED := QUEUED.(clock := 20, stream := Stream(map[1 := JOB], [], map[1 := Delivery(JudgeConsumer(0), 0)], 2),
                           workers := map[0 := Received(1, JOB)])

  /** The reaper has replaced the entry and removed it. */
  const REPLACED := STALLED.(db := WithRow(REMARKED), stream := Stream(map[2 := JOB], [2], map[], 3),
                             reapers := map[0 := Free], jobs := map[1 := JOB, 2 := JOB])

  /** The worker claims at last, and a second one drops the replacement as a duplicate. */
  const DROPPED := REPLACED.(db := WithRow(RUNNING), stream := Stream(map[], [], map[], 3), tokens := {1, 2},
                             workers := map[0 := Executing(1, CLAIMED), 1 := Idle], log := [Life.Started(9, 1)])

  /** The first worker completes the submission but reaches nobody. */
  const SILENT := DROPPED.(db := FinishMatch(WithRow(DONE), 5, Some(1)), workers := map[0 := Idle, 1 := Idle],
                           returned := map[9 := RECORD], log := [Life.Started(9, 1), Ended(9, 1)])

  const ADMIT := [Table(OpenMatch(1, 2, 5)), Table(Submit(REQ, 9, 0)), Enqueue(0, 9)]
  const STALL := [Work(0, Read), Tick(20)]
  const REPLACE := [Reap(0, Sweep(1)), Reap(0, Check), Reap(0, Replace), Reap(0, Remark), Reap(0, Remove)]
  const DROP := [Work(0, Claim(1)), Work(1, Read), Work(1, Claim(2)), Work(1, Ack)]
  const FAIL := [Work(0, Finish(PASS)), Work(0, Publish(false, false)), Work(0, Publish(false, false))]

  ghost predicate SameFields(a: State, b: State) {
    && a.db.users == b.db.users && a.db.problems == b.db.problems && a.db.matches == b.db.matches
    && a.db.subs == b.db.subs && a.db.claims == b.db.claims
    && a.stream.entries == b.stream.entries && a.stream.undelivered == b.stream.undelivered
    && a.stream.pel == b.stream.pel && a.stream.next == b.stream.next && a.clock == b.clock
    && a.workers == b.workers && a.dispatchers == b.dispatchers && a.reapers == b.reapers
    && a.jobs == b.jobs && a.tokens == b.tokens && a.returned == b.returned && a.events == b.events
    && a.log == b.log && a.accepted == b.accepted
  }

  lemma Goes(st: State, a: Action, next: State)
    requires Step(CFG, st, a).Some? && SameFields(Step(CFG, st, a).value, next)
    ensures Step(CFG, st, a) == Some(next)
  {
    hide Step;
  }

  lemma Opens()
    ensures MatchCreation.CreateTx(EMPTY_DB, 1, 2, 100, 0, 5).0 == OPENED
  {
    MatchCreation.CreateMeaning(EMPTY_DB, 1, 2, 100, 0, 5);
    var (db, res) := MatchCreation.CreateTx(EMPTY_DB, 1, 2, 100, 0, 5);
    hide MatchCreation.CreateTx;
    assert 7 in EMPTY_DB.problems;
    assert res.Created? && res.problem == 7;
    assert db.matches == OPENED.matches && db.claims == OPENED.claims;
  }

  lemma Accepts()
    ensures AcceptTx(OPENED, REQ, 0, 9) == (WithRow(PENDING), Accepted(9))
  {
    assert !KeyUsed(OPENED, REQ);
    assert Gate(OPENED, REQ, 0).None?;
    assert OPENED.subs[9 := PENDING] == map[9 := PENDING];
  }

  lemma Admitted()
    ensures Run(CFG, START, ADMIT) == Some(QUEUED)
  {
    hide AcceptTx, MatchCreation.CreateTx, WorkerStep, SweeperStep, MarkStep, ReclaimStep, SettleStep;
    var one := START.(db := OPENED);
    var two := one.(db := WithRow(PENDING), accepted := [(REQ, 9)]);
    Opens();
    Accepts();
    Goes(START, ADMIT[0], one);
    Goes(one, ADMIT[1], two);
    Goes(two, ADMIT[2], QUEUED);
    hide Step;
    Three(START, ADMIT, one, two, QUEUED);
  }

  lemma Three(st: State, acts: seq<Action>, one: State, two: State, end: State)
    requires |acts| == 3 && Step(CFG, st, acts[0]) == Some(one) && Step(CFG, one, acts[1]) == Some(two)
    requires Step(CFG, two, acts[2]) == Some(end)
    ensures Run(CFG, st, acts) == Some(end)
  {
    hide Step;
    assert acts[1..][0] == acts[1] && acts[1..][1..] == [acts[2]] && [acts[2]][1..] == [];
    assert Run(CFG, two, [acts[2]]) == Some(end);
    assert Run(CFG, one, acts[1..]) == Some(end);
  }

  lemma Stalled()
    ensures Run(CFG, QUEUED, STALL) == Some(STALLED)
  {
    var one := STALLED.(clock := 0);
    Goes(QUEUED, STALL[0], one);
    Goes(one, STALL[1], STALLED);
    hide Step;
    Two(QUEUED, STALL, one, STALLED);
  }

  lemma Two(st: State, acts: seq<Action>, one: State, end: State)
    requires |acts| == 2 && Step(CFG, st, acts[0]) == Some(one) && Step(CFG, one, acts[1]) == Some(end)
    ensures Run(CFG, st, acts) == Some(end)
  {
    hide Step;
    assert acts[1..] == [acts[1]] && [acts[1]][1..] == [];
    assert Run(CFG, one, [acts[1]]) == Some(end);
  }

  const SWEPT := STALLED.(stream := Stream(map[1 := JOB], [], map[1 := Delivery(ReaperConsumer(0), 20)], 2),
                          reapers := map[0 := Checking(1, JOB)])
  const CHECKED := SWEPT.(reapers := map[0 := Replacing(1, 9)])
  const READDED := CHECKED.(stream := Stream(map[1 := JOB, 2 := JOB], [2],
                                             map[1 := Delivery(ReaperConsumer(0), 20)], 3),
                            jobs := map[1 := JOB, 2 := JOB], reapers := map[0 := Remarking(1, 9)])
  const MARKED := READDED.(db := WithRow(REMARKED), reapers := map[0 := Removing(1)])

  lemma Sweeps()
    ensures Step(CFG, STALLED, REPLACE[0]) == Some(SWEPT) && Step(CFG, SWEPT, REPLACE[1]) == Some(CHECKED)
  {
    hide TableStep, WorkerStep, EnqueueStep, MarkStep, ReplaceStep, RemarkStep, RemoveStep;
    Goes(STALLED, REPLACE[0], SWEPT);
    Goes(SWEPT, REPLACE[1], CHECKED);
  }

  lemma Readds()
    ensures Step(CFG, CHECKED, REPLACE[2]) == Some(READDED)
  {
    hide TableStep, WorkerStep, EnqueueStep, MarkStep, SweepStep, CheckStep, RemarkStep, RemoveStep;
    Goes(CHECKED, REPLACE[2], READDED);
  }

  lemma Marks()
    ensures Step(CFG, READDED, REPLACE[3]) == Some(MARKED)
  {
    hide TableStep, WorkerStep, EnqueueStep, MarkStep, SweepStep, CheckStep, ReplaceStep, RemoveStep;
    Goes(READDED, REPLACE[3], MARKED);
  }

  lemma Removes()
    ensures Step(CFG, MARKED, REPLACE[4]) == Some(REPLACED)
  {
    hide TableStep, WorkerStep, EnqueueStep, MarkStep, SweepStep, CheckStep, ReplaceStep, RemarkStep;
    hide WithRow;
    Goes(MARKED, REPLACE[4], REPLACED);
  }

  lemma Replaced()
    ensures Run(CFG, STALLED, REPLACE) == Some(REPLACED)
  {
    Sweeps();
    Readds();
    Marks();
    Removes();
    hide Step;
    Two(STALLED, REPLACE[..2], SWEPT, CHECKED);
    Three(CHECKED, REPLACE[2..], READDED, MARKED, REPLACED);
    assert REPLACE == REPLACE[..2] + REPLACE[2..];
    Recovery.RunAppend(CFG, STALLED, REPLACE[..2], REPLACE[2..]);
  }

  const LATE := REPLACED.(db := WithRow(RUNNING), tokens := {1}, workers := map[0 := Executing(1, CLAIMED)],
                          log := [Life.Started(9, 1)])
  const SECOND := LATE.(stream := Stream(map[2 := JOB], [], map[2 := Delivery(JudgeConsumer(1), 20)], 3),
                        workers := map[0 := Executing(1, CLAIMED), 1 := Received(2, JOB)])
  const DUPLICATE := SECOND.(tokens := {1, 2}, workers := map[0 := Executing(1, CLAIMED), 1 := Discarding(2)])

  lemma ClaimsLate()
    ensures Step(CFG, REPLACED, DROP[0]) == Some(LATE)
  {
    hide TableStep, SweeperStep, EnqueueStep, MarkStep, ReadStep, FinishStep, PublishStep, AckStep;
    assert ClaimTx(WithRow(REMARKED), 9, 1, 10, 20).1 == Acquired(CLAIMED);
    Goes(REPLACED, DROP[0], LATE);
  }

  lemma RunningIsLive()
    ensures ClaimTx(WithRow(RUNNING), 9, 2, 10, 20) == (WithRow(RUNNING), LiveAttempt(30))
  {
  }

  lemma Duplicates()
    ensures Step(CFG, SECOND, DROP[2]) == Some(DUPLICATE)
  {
    hide TableStep, SweeperStep, EnqueueStep, MarkStep, ReadStep, FinishStep, PublishStep, AckStep, ClaimTx, WithRow;
    RunningIsLive();
    Goes(SECOND, DROP[2], DUPLICATE);
  }

  lemma ReadsReplacement()
    ensures Step(CFG, LATE, DROP[1]) == Some(SECOND)
  {
    hide TableStep, SweeperStep, EnqueueStep, MarkStep, AckStep, FinishStep, PublishStep, ClaimStep;
    hide WithRow;
    Goes(LATE, DROP[1], SECOND);
  }

  lemma Acknowledges()
    ensures Step(CFG, DUPLICATE, DROP[3]) == Some(DROPPED)
  {
    hide TableStep, SweeperStep, EnqueueStep, MarkStep, ReadStep, FinishStep, PublishStep, ClaimStep;
    hide WithRow;
    Goes(DUPLICATE, DROP[3], DROPPED);
  }

  lemma Dropped()
    ensures Run(CFG, REPLACED, DROP) == Some(DROPPED)
  {
    ClaimsLate();
    ReadsReplacement();
    Duplicates();
    Acknowledges();
    hide Step;
    Two(REPLACED, DROP[..2], LATE, SECOND);
    Two(SECOND, DROP[2..], DUPLICATE, DROPPED);
    assert DROP == DROP[..2] + DROP[2..];
    Recovery.RunAppend(CFG, REPLACED, DROP[..2], DROP[2..]);
  }

  const STORED := SILENT.(workers := map[0 := Publishing(1, RECORD, 0, false), 1 := Idle])
  const HALFWAY := SILENT.(workers := map[0 := Publishing(1, RECORD, 1, true), 1 := Idle])

  lemma Completes()
    ensures CompleteTx(WithRow(RUNNING), CLAIMED, PASS, 20) == (FinishMatch(WithRow(DONE), 5, Some(1)), Applied(RECORD))
    ensures Announceable(RECORD)
  {
    assert WithSub(WithRow(RUNNING), 9, DONE) == WithRow(DONE);
  }

  lemma Stores()
    ensures Step(CFG, DROPPED, FAIL[0]) == Some(STORED)
  {
    hide TableStep, SweeperStep, EnqueueStep, MarkStep, AckStep, ReadStep, PublishStep, ClaimStep;
    Completes();
    hide CompleteTx, FinishMatch, WithRow, Announceable;
    Goes(DROPPED, FAIL[0], STORED);
  }

  lemma FailsToPublish()
    ensures Step(CFG, STORED, FAIL[1]) == Some(HALFWAY)
  {
    hide TableStep, SweeperStep, EnqueueStep, MarkStep, AckStep, ReadStep, FinishStep, ClaimStep;
    hide EventFor, FinishMatch, WithRow;
    Goes(STORED, FAIL[1], HALFWAY);
  }

  lemma FailsAgain()
    ensures Step(CFG, HALFWAY, FAIL[2]) == Some(SILENT)
  {
    hide TableStep, SweeperStep, EnqueueStep, MarkStep, AckStep, ReadStep, FinishStep, ClaimStep;
    hide EventFor, FinishMatch, WithRow;
    Goes(HALFWAY, FAIL[2], SILENT);
  }

  lemma Silenced()
    ensures Run(CFG, DROPPED, FAIL) == Some(SILENT)
  {
    Stores();
    FailsToPublish();
    FailsAgain();
    hide Step;
    Three(DROPPED, FAIL, STORED, HALFWAY, SILENT);
  }

  /** The claim comes when the entry is gone and only its unread replacement is left. */
  lemma ClaimsUnbacked()
    ensures !BackedStep(CFG, REPLACED, DROP[0])
  {
    ClaimsLate();
    assert Acquires(CFG, REPLACED, DROP[0], 9) by { LateAcquires(); }
    hide Step, Acquires, WithRow;
    forall e ensures !Safe(LATE, 9, e) { assert e !in LATE.stream.pel; }
  }

  lemma LateAcquires()
    ensures Acquires(CFG, REPLACED, DROP[0], 9)
  {
    assert ClaimTx(WithRow(REMARKED), 9, 1, 10, 20).1 == Acquired(CLAIMED);
    hide ClaimTx, WithRow;
  }

  /** The claim of the replacement acquires nothing, and there is no other. */
  lemma RestIsBacked()
    ensures BackedRun(CFG, LATE, DROP[1..] + FAIL)
  {
    ReadsReplacement();
    Duplicates();
    DuplicateAcquiresNothing();
    var rest := [DROP[3]] + FAIL;
    hide Step, BackedStep, WithRow;
    NoClaims(CFG, DUPLICATE, rest);
    BackedCons(SECOND, DROP[2], DUPLICATE, rest);
    NoClaims(CFG, LATE, [DROP[1]]);
    BackedCons(LATE, DROP[1], SECOND, [DROP[2]] + rest);
    assert DROP[1..] + FAIL == [DROP[1]] + ([DROP[2]] + rest);
  }

  lemma BackedCons(st: State, a: Action, next: State, rest: seq<Action>)
    requires Step(CFG, st, a) == Some(next) && BackedStep(CFG, st, a) && BackedRun(CFG, next, rest)
    ensures BackedRun(CFG, st, [a] + rest)
  {
    assert ([a] + rest)[0] == a && ([a] + rest)[1..] == rest;
    hide Step, BackedStep;
  }

  lemma DuplicateAcquiresNothing()
    ensures BackedStep(CFG, SECOND, DROP[2]) && BackedStep(CFG, LATE, DROP[1])
  {
    hide TableStep, SweeperStep, EnqueueStep, MarkStep, ReadStep, FinishStep, PublishStep, AckStep;
    hide ClaimTx, WithRow, Backed, Step;
    RunningIsLive();
  }

  /** A valid configuration and a run of the code's own steps that ends with a
      completed submission whose result no player was told, an empty stream, and a
      row that no dispatcher will ever enqueue again. Exactly one of its steps sets it
      apart from the runs of `AtLeastOnce`: the claim that the stalled worker makes
      after a reaper has taken its entry away. */
  lemma UntimelyWorkerLosesResult()
    ensures Reaches(CFG, START, ADMIT + STALL + REPLACE + DROP + FAIL, SILENT)
    ensures 9 in SILENT.returned && SILENT.events == {} && SILENT.stream.entries == map[]
    ensures SILENT.db.subs[9].status == Completed
    ensures forall now, locked :: Dispatch.DueKeys(SILENT.db, now, CFG.staleAfter, locked) == map[]
    ensures Run(CFG, START, ADMIT + STALL + REPLACE) == Some(REPLACED) && BackedRun(CFG, START, ADMIT + STALL + REPLACE)
    ensures Step(CFG, REPLACED, DROP[0]) == Some(LATE) && !BackedStep(CFG, REPLACED, DROP[0])
    ensures BackedRun(CFG, LATE, DROP[1..] + FAIL)
  {
    hide Run, Step, BackedRun, BackedStep;
    Admitted();
    Stalled();
    Replaced();
    Dropped();
    Silenced();
    ClaimsLate();
    ClaimsUnbacked();
    RestIsBacked();
    Recovery.RunAppend(CFG, START, ADMIT, STALL);
    Recovery.RunAppend(CFG, START, ADMIT + STALL, REPLACE);
    Recovery.RunAppend(CFG, START, ADMIT + STALL + REPLACE, DROP);
    Recovery.RunAppend(CFG, START, ADMIT + STALL + REPLACE + DROP, FAIL);
    NoClaims(CFG, START, ADMIT + STALL + REPLACE);
  }
}
