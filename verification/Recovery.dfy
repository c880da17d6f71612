// Nothing admitted is ever stuck: from every reachable state, and even after the
// stream lost all its entries, whole batches of the ordinary background rounds
// complete any submission of a well-formed problem.
module Recovery {
  import opened Base
  import opened Rows
  import opened JudgeStore
  import opened JudgeResult
  import opened Stream
  import opened Protocol
  import opened ProtocolSafety
  import opened ProtocolTheorems
  import Leases
  import Dispatch

  /** What the sandbox would report for a submission with so many tests. */
  type Verdicts = (Uuid, nat) -> Terminal

  ghost predicate Sound(verdicts: Verdicts) {
    forall s, n | n > 0 :: ValidTerminal(verdicts(s, n), n)
  }

  /** One round of healthy background work. */
  datatype Round =
    | Wait(delta: nat)
    | ReclaimBatch                       // one reclaimLeases transaction
    | DispatchBatch(d: nat)              // one DispatchPending transaction
    | JudgeNext(w: nat, token: Uuid)     // one worker reads the next entry and sees it through

  function ReclaimActs(ids: seq<Uuid>): seq<Action> {
    if ids == [] then [] else [Table(Reclaim(ids[0]))] + ReclaimActs(ids[1..])
  }

  function DispatchActs(d: nat, ids: seq<Uuid>): seq<Action> {
    if ids == [] then [] else [Enqueue(d, ids[0]), Mark(d)] + DispatchActs(d, ids[1..])
  }

  /** What is left to do for a worker after its claim, if nothing fails. */
  function SeeThrough(w: nat, pc: WorkerPc, verdicts: Verdicts): seq<Action> {
    match pc
    case Executing(_, c) =>
      [Work(w, Finish(verdicts(c.sub, c.tests))),
       Work(w, Publish(true, true)), Work(w, Publish(true, true)), Work(w, Ack)]
    case Publishing(_, _, _, _) => [Work(w, Publish(true, true)), Work(w, Publish(true, true)), Work(w, Ack)]
    case Discarding(_) => [Work(w, Ack)]
    case _ => []
  }

  ghost function RunRound(cfg: Config, verdicts: Verdicts, st: State, round: Round): Option<State> {
    match round
    case Wait(delta) => Run(cfg, st, [Tick(delta)])
    case ReclaimBatch =>
      Run(cfg, st, ReclaimActs(Oldest(Leases.ExpiredKeys(st.db, st.clock, {}), cfg.reaperBatch)))
    case DispatchBatch(d) =>
      Run(cfg, st, DispatchActs(d, Oldest(Dispatch.DueKeys(st.db, st.clock, cfg.staleAfter, {}), cfg.dispatchBatch)))
    case JudgeNext(w, token) =>
      match Run(cfg, st, [Work(w, Read), Work(w, Claim(token))])
      case None => None
      case Some(claimed) => Run(cfg, claimed, SeeThrough(w, WorkerAt(claimed, w), verdicts))
  }

  ghost function RunRounds(cfg: Config, verdicts: Verdicts, st: State, rounds: seq<Round>): Option<State>
    decreases |rounds|
  {
    if rounds == [] then Some(st)
    else match RunRound(cfg, verdicts, st, rounds[0])
      case None => None
      case Some(next) => RunRounds(cfg, verdicts, next, rounds[1..])
  }

  // ------------------------------------------------------------ rounds are plain runs

  lemma {:induction false} RunAppend(cfg: Config, st: State, a: seq<Action>, b: seq<Action>)
    requires Run(cfg, st, a).Some?
    ensures Run(cfg, st, a + b) == Run(cfg, Run(cfg, st, a).value, b)
    decreases |a|
  {
    if a == [] {
      assert a + b == b;
    } else {
      assert (a + b)[1..] == a[1..] + b;
      hide Step;
      RunAppend(cfg, Step(cfg, st, a[0]).value, a[1..], b);
    }
  }

  lemma {:induction false} RoundsAreRuns(cfg: Config, verdicts: Verdicts, st: State, rounds: seq<Round>)
    returns (acts: seq<Action>)
    requires RunRounds(cfg, verdicts, st, rounds).Some?
    ensures Run(cfg, st, acts) == RunRounds(cfg, verdicts, st, rounds)
    decreases |rounds|
  {
    acts := [];
    if rounds != [] {
      var next := RunRound(cfg, verdicts, st, rounds[0]).value;
      var first: seq<Action>;
      hide Step;
      match rounds[0] {
        case Wait(delta) => first := [Tick(delta)];
        case ReclaimBatch =>
          first := ReclaimActs(Oldest(Leases.ExpiredKeys(st.db, st.clock, {}), cfg.reaperBatch));
        case DispatchBatch(d) =>
          first := DispatchActs(d, Oldest(Dispatch.DueKeys(st.db, st.clock, cfg.staleAfter, {}), cfg.dispatchBatch));
        case JudgeNext(w, token) =>
          var start := [Work(w, Read), Work(w, Claim(token))];
          var claimed := Run(cfg, st, start).value;
          RunAppend(cfg, st, start, SeeThrough(w, WorkerAt(claimed, w), verdicts));
          first := start + SeeThrough(w, WorkerAt(claimed, w), verdicts);
      }
      assert Run(cfg, st, first) == Some(next);
      var rest := RoundsAreRuns(cfg, verdicts, next, rounds[1..]);
      RunAppend(cfg, st, first, rest);
      acts := first + rest;
    }
  }

  lemma {:induction false} RoundsAppend(cfg: Config, verdicts: Verdicts, st: State, a: seq<Round>, b: seq<Round>)
    requires RunRounds(cfg, verdicts, st, a).Some?
    ensures RunRounds(cfg, verdicts, st, a + b) == RunRounds(cfg, verdicts, RunRounds(cfg, verdicts, st, a).value, b)
    decreases |a|
  {
    if a == [] {
      assert a + b == b;
    } else {
      assert (a + b)[1..] == a[1..] + b;
      hide RunRound;
      RoundsAppend(cfg, verdicts, RunRound(cfg, verdicts, st, a[0]).value, a[1..], b);
    }
  }

  // -------------------------------------------------------------------- batch rounds

  /** A reclaim round is the reclaim transaction on the tables, and nothing else. */
  lemma {:induction false} ReclaimRuns(cfg: Config, st: State, ids: seq<Uuid>)
    requires NoDuplicates(ids)
    requires forall i | 0 <= i < |ids| :: ids[i] in st.db.subs && Leases.Expired(st.db.subs[ids[i]], st.clock)
    ensures Run(cfg, st, ReclaimActs(ids)).Some?
    ensures var st' := Run(cfg, st, ReclaimActs(ids)).value;
      && st'.db == Leases.ReclaimAll(st.db, ids, cfg.maxAttempts, st.clock)
      && st'.stream == st.stream && st'.clock == st.clock
    decreases |ids|
  {
    if ids != [] {
      var next := Step(cfg, st, Table(Reclaim(ids[0]))).value;
      forall i | 0 <= i < |ids[1..]|
        ensures ids[1..][i] in next.db.subs && Leases.Expired(next.db.subs[ids[1..][i]], next.clock)
      {
        assert ids[1..][i] == ids[i + 1] && ids[i + 1] != ids[0];
      }
      assert ReclaimActs(ids)[0] == Table(Reclaim(ids[0])) && ReclaimActs(ids)[1..] == ReclaimActs(ids[1..]);
      ReclaimRuns(cfg, next, ids[1..]);
    }
  }

  function Dispatched(st: State, d: nat, s: Uuid): State {
    AddJob(st, s).(db := Dispatch.MarkTx(st.db, s, st.clock), dispatchers := st.dispatchers[d := Ready])
  }

  lemma OneDispatch(cfg: Config, st: State, d: nat, s: Uuid)
    requires DispatcherAt(st, d).Ready? && s in st.db.subs
    ensures Run(cfg, st, [Enqueue(d, s), Mark(d)]) == Some(Dispatched(st, d, s))
  {
    var mid := Step(cfg, st, Enqueue(d, s)).value;
    assert [Enqueue(d, s), Mark(d)][1..] == [Mark(d)];
    assert [Mark(d)][1..] == [];
    assert mid.dispatchers[d := Ready] == st.dispatchers[d := Ready];
    assert Step(cfg, mid, Mark(d)) == Some(Dispatched(st, d, s));
    assert Run(cfg, mid, [Mark(d)]) == Some(Dispatched(st, d, s));
  }

  /** The `i`-th entry still to be read carries the submission. */
  predicate JobAt(st: State, i: nat, s: Uuid) {
    && i < |st.stream.undelivered| && st.stream.undelivered[i] in st.jobs
    && st.jobs[st.stream.undelivered[i]] == JobFor(s)
  }

  /** The queue grew by one job per id, in order, after everything already there. */
  ghost predicate Queued(st: State, st': State, ids: seq<Uuid>) {
    && |st'.stream.undelivered| == |st.stream.undelivered| + |ids|
    && st'.stream.undelivered[..|st.stream.undelivered|] == st.stream.undelivered
    && (forall i | 0 <= i < |ids| :: JobAt(st', |st.stream.undelivered| + i, ids[i]))
    && (forall e | e in st.jobs && e < st.stream.next :: e in st'.jobs && st'.jobs[e] == st.jobs[e])
    && st.stream.next <= st'.stream.next
  }

  lemma QueuedCons(st: State, d: nat, ids: seq<Uuid>, st': State)
    requires ids != [] && Queued(Dispatched(st, d, ids[0]), st', ids[1..])
    ensures Queued(st, st', ids)
  {
  }

  /** A dispatch round marks its page and puts one job per row in the stream. */
  lemma {:induction false} DispatchRuns(cfg: Config, st: State, d: nat, ids: seq<Uuid>)
    requires DispatcherAt(st, d).Ready?
    requires forall i | 0 <= i < |ids| :: ids[i] in st.db.subs && st.db.subs[ids[i]].status == Pending
    ensures Run(cfg, st, DispatchActs(d, ids)).Some?
    ensures var st' := Run(cfg, st, DispatchActs(d, ids)).value;
      && st'.db == Dispatch.MarkAll(st.db, ids, st.clock) && st'.clock == st.clock && DispatcherAt(st', d).Ready?
      && Queued(st, st', ids)
    decreases |ids|
  {
    if ids != [] {
      var next := Dispatched(st, d, ids[0]);
      OneDispatch(cfg, st, d, ids[0]);
      forall i | 0 <= i < |ids[1..]|
        ensures ids[1..][i] in next.db.subs && next.db.subs[ids[1..][i]].status == Pending
      {
        assert ids[1..][i] == ids[i + 1];
      }
      hide Step;
      RunAppend(cfg, st, [Enqueue(d, ids[0]), Mark(d)], DispatchActs(d, ids[1..]));
      DispatchRuns(cfg, next, d, ids[1..]);
      QueuedCons(st, d, ids, Run(cfg, next, DispatchActs(d, ids[1..])).value);
      hide Queued;
    }
  }

  // ----------------------------------------------------------------- one judge round

  /** The state a judge round leaves: one entry further, its worker free again, the
      clock where it was. */
  ghost predicate JudgedOne(st: State, st': State, w: nat) {
    && st.stream.undelivered != [] && st'.stream.undelivered == st.stream.undelivered[1..]
    && st'.clock == st.clock && WorkerAt(st', w).Idle?
    && st'.tokens >= st.tokens
    && (forall e | e in st.jobs :: e in st'.jobs && st'.jobs[e] == st.jobs[e])
  }

  /** Publishing both events and finalising, when nothing fails. */
  lemma AnnounceRuns(cfg: Config, st: State, w: nat)
    requires w in st.workers && st.workers[w].Publishing? && st.workers[w].next == 0 && !st.workers[w].failed
    requires |st.workers[w].record.players| == 2
    ensures var acts := [Work(w, Publish(true, true)), Work(w, Publish(true, true)), Work(w, Ack)];
      var r := st.workers[w].record;
      Run(cfg, st, acts).Some? && SameWork(st, Run(cfg, st, acts).value, w)
      && EventFor(r, r.players[0]) in Run(cfg, st, acts).value.events
      && EventFor(r, r.players[1]) in Run(cfg, st, acts).value.events
  {
    var acts := [Work(w, Publish(true, true)), Work(w, Publish(true, true)), Work(w, Ack)];
    var one := PublishStep(st, w, true, true).value;
    var two := PublishStep(one, w, true, true).value;
    assert Step(cfg, st, acts[0]) == Some(one);
    assert Step(cfg, one, acts[1..][0]) == Some(two);
    assert acts[1..][1..] == [Work(w, Ack)];
    AckRuns(cfg, two, w);
    hide Step;
    assert Run(cfg, one, acts[1..]) == Run(cfg, two, [Work(w, Ack)]);
    assert Run(cfg, st, acts) == Run(cfg, one, acts[1..]);
  }

  ghost predicate SameWork(st: State, st': State, w: nat) {
    && st'.db == st.db && st'.clock == st.clock && st'.tokens == st.tokens && st'.jobs == st.jobs
    && st'.stream.undelivered == st.stream.undelivered && WorkerAt(st', w).Idle?
  }

  lemma AckRuns(cfg: Config, st: State, w: nat)
    requires w in st.workers && st.workers[w].Discarding?
    ensures Run(cfg, st, [Work(w, Ack)]).Some? && SameWork(st, Run(cfg, st, [Work(w, Ack)]).value, w)
    ensures Run(cfg, st, [Work(w, Ack)]).value.events == st.events
  {
  }

  /** A worker whose claim is still good. */
  ghost predicate Owning(cfg: Config, st: State, w: nat) {
    && DbInv(cfg.maxAttempts, st.db)
    && w in st.workers && st.workers[w].Executing?
    && ClaimFits(st.db, st.workers[w].claimed)
    && Owns(st.db.subs[st.workers[w].claimed.sub], st.workers[w].claimed)
  }

  /** Finishing such a claim completes its row alone and starts the announcement. */
  lemma FinishAnnounces(cfg: Config, st: State, w: nat, result: Terminal)
    requires Owning(cfg, st, w) && ValidTerminal(result, st.workers[w].claimed.tests)
    ensures FinishStep(st, w, result).Some?
    ensures var done := FinishStep(st, w, result).value;
            var c := st.workers[w].claimed;
      && w in done.workers && done.workers[w].Publishing? && done.workers[w].next == 0 && !done.workers[w].failed
      && |done.workers[w].record.players| == 2
      && done.clock == st.clock && done.tokens == st.tokens && done.jobs == st.jobs && done.stream == st.stream
      && c.sub in done.db.subs && done.db.subs[c.sub].status == Completed
      && (forall s | s in st.db.subs && s != c.sub :: s in done.db.subs && done.db.subs[s] == st.db.subs[s])
  {
    hide CompleteTx, DbInv, Announceable;
    var c := st.workers[w].claimed;
    CompleteMeaning(cfg.maxAttempts, st.db, c, result, st.clock);
    AnnouncesAfter(cfg.maxAttempts, st.db, c, result, st.clock);
  }

  lemma AnnouncesAfter(max: nat, db: Db, c: Claimed, result: Terminal, now: nat)
    requires DbInv(max, db) && ClaimFits(db, c) && Owns(db.subs[c.sub], c) && ValidTerminal(result, c.tests)
    ensures var res := CompleteTx(db, c, result, now).1;
      res.Applied? && Announceable(res.record) && |res.record.players| == 2
  {
  }

  ghost predicate OthersSame(db: Db, db': Db, job: Job) {
    forall s | s in db.subs && job != JobFor(s) :: s in db'.subs && db'.subs[s] == db.subs[s]
  }

  /** The worker is free again, `s` is completed, and no other row changed. */
  ghost predicate JudgedAlone(st: State, st': State, w: nat, s: Uuid) {
    && st'.clock == st.clock && st'.tokens == st.tokens && st'.jobs == st.jobs
    && st'.stream.undelivered == st.stream.undelivered && WorkerAt(st', w).Idle?
    && s in st'.db.subs && st'.db.subs[s].status == Completed
    && OthersSame(st.db, st'.db, JobFor(s))
  }

  lemma SeeExecution(w: nat, pc: WorkerPc, verdicts: Verdicts)
    requires pc.Executing?
    ensures SeeThrough(w, pc, verdicts)
         == [Work(w, Finish(verdicts(pc.claimed.sub, pc.claimed.tests)))]
            + [Work(w, Publish(true, true)), Work(w, Publish(true, true)), Work(w, Ack)]
  {
  }

  /** From a claim that acquired the submission to its completion. */
  lemma ExecuteRuns(cfg: Config, verdicts: Verdicts, st: State, w: nat)
    requires Sound(verdicts) && Owning(cfg, st, w)
    ensures var after := Run(cfg, st, SeeThrough(w, st.workers[w], verdicts));
      after.Some? && JudgedAlone(st, after.value, w, st.workers[w].claimed.sub)
  {
    hide Owning, FinishStep, Run, SeeThrough, Sound, Step, SameWork, OthersSame, DbInv, ClaimFits;
    OwningShape(cfg, verdicts, st, w);
    var c := st.workers[w].claimed;
    var result := verdicts(c.sub, c.tests);
    var rest := [Work(w, Publish(true, true)), Work(w, Publish(true, true)), Work(w, Ack)];
    FinishAnnounces(cfg, st, w, result);
    SeeExecution(w, st.workers[w], verdicts);
    var done := FinishStep(st, w, result).value;
    FinishIsStep(cfg, st, w, result);
    AnnounceRuns(cfg, done, w);
    RunCons(cfg, st, Work(w, Finish(result)), rest);
    JudgedAlready(st, done, Run(cfg, done, rest).value, w, c.sub);
  }

  lemma OwningShape(cfg: Config, verdicts: Verdicts, st: State, w: nat)
    requires Owning(cfg, st, w) && Sound(verdicts)
    ensures w in st.workers && st.workers[w].Executing?
    ensures var c := st.workers[w].claimed; ValidTerminal(verdicts(c.sub, c.tests), c.tests)
  {
    hide DbInv, Owns, ValidTerminal;
  }

  lemma FinishIsStep(cfg: Config, st: State, w: nat, result: Terminal)
    ensures Step(cfg, st, Work(w, Finish(result))) == FinishStep(st, w, result)
  {
    hide FinishStep;
  }

  /** Announcing adds nothing to what finishing did. */
  lemma JudgedAlready(st: State, done: State, end: State, w: nat, s: Uuid)
    requires SameWork(done, end, w)
    requires done.clock == st.clock && done.tokens == st.tokens && done.jobs == st.jobs && done.stream == st.stream
    requires s in done.db.subs && done.db.subs[s].status == Completed
    requires forall u | u in st.db.subs && u != s :: u in done.db.subs && done.db.subs[u] == st.db.subs[u]
    ensures JudgedAlone(st, end, w, s)
  {
  }

  lemma RunCons(cfg: Config, st: State, a: Action, rest: seq<Action>)
    requires Step(cfg, st, a).Some?
    ensures Run(cfg, st, [a] + rest) == Run(cfg, Step(cfg, st, a).value, rest)
  {
  }

  /** The problem of a submission can be judged. */
  ghost predicate Judgeable(db: Db, s: Uuid) {
    s in db.subs && db.subs[s].matchId in db.matches && db.matches[db.subs[s].matchId].problem in db.problems
    && DecodeTests(db.problems[db.matches[db.subs[s].matchId].problem]).Some?
  }

  /** What a claim does to the tables and hands out, in one place. */
  lemma ClaimDisposes(max: nat, db: Db, s: Uuid, token: Uuid, lease: nat, now: nat)
    requires DbInv(max, db) && token != NIL && lease > 0
    ensures var (db', res) := ClaimTx(db, s, token, lease, now);
      && DbInv(max, db') && OthersSame(db, db', JobFor(s))
      && (res.Acquired? ==> res.claimed.sub == s && ClaimFits(db', res.claimed) && Owns(db'.subs[s], res.claimed))
      && (Judgeable(db, s) && db.subs[s].status == Pending ==> res.Acquired?)
  {
    ClaimMeaning(max, db, s, token, lease, now);
    ClaimKeeps(max, db, s, token, lease, now);
    ClaimSucceedsIff(max, db, s, token, lease, now);
    hide DbInv, ClaimTx, ClaimFits;
  }

  /** Every claim of a received job leads on: to an execution the worker owns, to an
      announcement that builds, or to dropping or leaving the entry. */
  lemma ClaimLeadsOn(cfg: Config, st: State, w: nat, token: Uuid, job: Job)
    requires ValidConfig(cfg) && DbInv(cfg.maxAttempts, st.db) && token != NIL && token !in st.tokens
    requires w in st.workers && st.workers[w].Received? && st.workers[w].job == job
    ensures ClaimStep(cfg, st, w, token).Some?
    ensures var st' := ClaimStep(cfg, st, w, token).value;
      && st'.clock == st.clock && st.tokens <= st'.tokens && st'.jobs == st.jobs && st'.stream == st.stream
      && w in st'.workers && OthersSame(st.db, st'.db, job)
      && match st'.workers[w]
         case Executing(_, c) => Owning(cfg, st', w) && job == JobFor(c.sub)
         case Publishing(_, r, next, failed) => next == 0 && !failed && |r.players| == 2
         case Received(_, _) => false
         case _ => true
    ensures job.JobFor? && Judgeable(st.db, job.sub) && st.db.subs[job.sub].status == Pending ==>
              ClaimStep(cfg, st, w, token).value.workers[w].Executing?
  {
    hide DbInv, ClaimTx, ClaimFits;
    if job.JobFor? {
      ClaimDisposes(cfg.maxAttempts, st.db, job.sub, token, cfg.attemptLease, st.clock);
    }
    hide Owns, Judgeable;
  }

  lemma ReadLeadsOn(cfg: Config, st: State, w: nat)
    requires JobsInv(st) && WorkerAt(st, w).Idle? && st.stream.undelivered != []
    ensures st.stream.undelivered[0] in st.jobs && ReadStep(st, w).Some?
    ensures var st' := ReadStep(st, w).value;
      && st'.clock == st.clock && st'.tokens == st.tokens && st'.jobs == st.jobs && st'.db == st.db
      && st'.stream.undelivered == st.stream.undelivered[1..]
      && w in st'.workers && st'.workers[w] == Received(st.stream.undelivered[0], st.jobs[st.stream.undelivered[0]])
  {
  }

  /** A judge round by an idle worker always goes through: it takes the next entry
      off the queue, completes its submission if that was pending and well formed,
      and touches no other row. */
  lemma JudgeRuns(cfg: Config, verdicts: Verdicts, st: State, w: nat, token: Uuid)
    requires ValidConfig(cfg) && Sound(verdicts) && SafetyInv(cfg, st)
    requires WorkerAt(st, w).Idle? && st.stream.undelivered != [] && token != NIL && token !in st.tokens
    ensures st.stream.undelivered[0] in st.jobs
    ensures RunRound(cfg, verdicts, st, JudgeNext(w, token)).Some?
    ensures var st' := RunRound(cfg, verdicts, st, JudgeNext(w, token)).value;
            var job := st.jobs[st.stream.undelivered[0]];
      && JudgedOne(st, st', w) && OthersSame(st.db, st'.db, job)
      && (job.JobFor? && Judgeable(st.db, job.sub) && st.db.subs[job.sub].status == Pending ==>
            (job.sub in st'.db.subs && st'.db.subs[job.sub].status == Completed))
  {
    hide SafetyInv, JobsInv, DbInv, StreamOk, PcsInv, MarksInv, ResultsInv, AcceptedInv, ReadStep, ClaimStep;
    hide Step, WorkerStep, Owning, Judgeable, Run, Sound;
    SafetyParts(cfg, st);
    ReadLeadsOn(cfg, st, w);
    var read := ReadStep(st, w).value;
    var job := st.jobs[st.stream.undelivered[0]];
    ClaimLeadsOn(cfg, read, w, token, job);
    var claimed := ClaimStep(cfg, read, w, token).value;
    ReadClaimRuns(cfg, st, w, token);
    match claimed.workers[w] {
      case Executing(_, c) => ExecuteRuns(cfg, verdicts, claimed, w);
      case Publishing(_, r, next, failed) => AnnounceRuns(cfg, claimed, w);
      case Discarding(_) => AckRuns(cfg, claimed, w);
      case Idle => NothingRuns(cfg, claimed);
    }
  }

  lemma NothingRuns(cfg: Config, st: State)
    ensures Run(cfg, st, []) == Some(st)
  {
  }

  lemma ReadClaimRuns(cfg: Config, st: State, w: nat, token: Uuid)
    requires ReadStep(st, w).Some? && ClaimStep(cfg, ReadStep(st, w).value, w, token).Some?
    ensures Run(cfg, st, [Work(w, Read), Work(w, Claim(token))]) == ClaimStep(cfg, ReadStep(st, w).value, w, token)
  {
    hide ReadStep, ClaimStep;
    var acts := [Work(w, Read), Work(w, Claim(token))];
    var read := ReadStep(st, w).value;
    assert acts[1..] == [Work(w, Claim(token))] && acts[1..][1..] == [];
    assert Step(cfg, st, acts[0]) == Some(read);
    assert Step(cfg, read, acts[1..][0]) == ClaimStep(cfg, read, w, token);
    assert Run(cfg, read, acts[1..]) == ClaimStep(cfg, read, w, token);
  }

  // ------------------------------------------------------------------- composing rounds

  lemma UnusedNat(used: set<nat>) returns (n: nat)
    ensures n != 0 && n !in used
  {
    if used == {} {
      n := 1;
    } else {
      MaxExists(used);
      var top :| top in used && forall x | x in used :: x <= top;
      n := top + 1;
    }
  }

  lemma JudgeableLater(db: Db, db': Db, s: Uuid)
    requires Evolves(db, db') && Judgeable(db, s)
    ensures Judgeable(db', s)
  {
  }

  lemma RoundKeeps(cfg: Config, verdicts: Verdicts, st: State, round: Round)
    requires ValidConfig(cfg) && SafetyInv(cfg, st) && RunRound(cfg, verdicts, st, round).Some?
    ensures SafetyInv(cfg, RunRound(cfg, verdicts, st, round).value)
    ensures Later(st, RunRound(cfg, verdicts, st, round).value)
  {
    hide SafetyInv, RunRound;
    var one := [round];
    assert one[1..] == [];
    assert RunRounds(cfg, verdicts, RunRound(cfg, verdicts, st, round).value, one[1..]).Some?;
    assert RunRounds(cfg, verdicts, st, one) == RunRound(cfg, verdicts, st, round);
    var acts := RoundsAreRuns(cfg, verdicts, st, one);
    RunKeeps(cfg, st, acts);
  }

  lemma OneMore(cfg: Config, verdicts: Verdicts, st: State, round: Round, rest: seq<Round>)
    requires RunRound(cfg, verdicts, st, round).Some?
    ensures RunRounds(cfg, verdicts, st, [round] + rest)
         == RunRounds(cfg, verdicts, RunRound(cfg, verdicts, st, round).value, rest)
  {
  }

  /** One judge round brings the submission's entry closer, or completes it. */
  lemma JudgeCloser(cfg: Config, verdicts: Verdicts, st: State, s: Uuid, i: nat) returns (round: Round)
    requires ValidConfig(cfg) && Sound(verdicts) && SafetyInv(cfg, st)
    requires Judgeable(st.db, s) && st.db.subs[s].status == Pending && JobAt(st, i, s)
    ensures RunRound(cfg, verdicts, st, round).Some?
    ensures var next := RunRound(cfg, verdicts, st, round).value;
      SafetyInv(cfg, next) && (CompletedIn(next, s)
        || (i > 0 && Judgeable(next.db, s) && next.db.subs[s].status == Pending && JobAt(next, i - 1, s)))
  {
    hide RunRound, SafetyInv, Sound, Evolves, Judgeable;
    var w := UnusedNat(st.workers.Keys);
    var token := UnusedNat(st.tokens);
    JudgeRuns(cfg, verdicts, st, w, token);
    RoundKeeps(cfg, verdicts, st, JudgeNext(w, token));
    round := JudgeNext(w, token);
    var next := RunRound(cfg, verdicts, st, round).value;
    JudgeableIsRow(st.db, s);
    if st.jobs[st.stream.undelivered[0]] != JobFor(s) {
      JudgeableLater(st.db, next.db, s);
      assert next.stream.undelivered[i - 1] == st.stream.undelivered[i];
    }
  }

  lemma JudgeableIsRow(db: Db, s: Uuid)
    requires Judgeable(db, s)
    ensures s in db.subs
  {
  }

  /** Workers eat through the queue until they reach the submission's entry. */
  lemma DrainQueue(cfg: Config, verdicts: Verdicts, st: State, s: Uuid, i: nat) returns (rounds: seq<Round>)
    requires ValidConfig(cfg) && Sound(verdicts) && SafetyInv(cfg, st)
    requires Judgeable(st.db, s) && st.db.subs[s].status == Pending && JobAt(st, i, s)
    ensures RunRounds(cfg, verdicts, st, rounds).Some?
    ensures CompletedIn(RunRounds(cfg, verdicts, st, rounds).value, s)
    decreases i
  {
    hide RunRound, SafetyInv, RunRounds, JobAt;
    var round := JudgeCloser(cfg, verdicts, st, s, i);
    var next := RunRound(cfg, verdicts, st, round).value;
    var rest: seq<Round> := [];
    if CompletedIn(next, s) {
      EmptyRounds(cfg, verdicts, next);
    } else {
      rest := DrainQueue(cfg, verdicts, next, s, i - 1);
    }
    OneMore(cfg, verdicts, st, round, rest);
    rounds := [round] + rest;
  }

  predicate CompletedIn(st: State, s: Uuid) {
    s in st.db.subs && st.db.subs[s].status == Completed
  }

  lemma EmptyRounds(cfg: Config, verdicts: Verdicts, st: State)
    ensures RunRounds(cfg, verdicts, st, []) == Some(st)
  {
  }

  function DueCount(cfg: Config, db: Db, now: nat): nat {
    |Dispatch.DueKeys(db, now, cfg.staleAfter, {})|
  }

  function DuePage(cfg: Config, db: Db, now: nat): seq<Uuid> {
    Oldest(Dispatch.DueKeys(db, now, cfg.staleAfter, {}), cfg.dispatchBatch)
  }

  lemma PageIsDue(cfg: Config, db: Db, now: nat)
    ensures forall i | 0 <= i < |DuePage(cfg, db, now)| ::
              DuePage(cfg, db, now)[i] in db.subs && db.subs[DuePage(cfg, db, now)[i]].status == Pending
  {
    OldestIsPage(Dispatch.DueKeys(db, now, cfg.staleAfter, {}), cfg.dispatchBatch);
    hide Oldest;
  }

  /** What a batch means for a due row: in the page, or still due among fewer. */
  lemma BatchTakes(cfg: Config, db: Db, now: nat, s: Uuid)
    requires ValidConfig(cfg) && s in db.subs && Dispatch.Due(db.subs[s], now, cfg.staleAfter)
    ensures var db' := Dispatch.MarkAll(db, DuePage(cfg, db, now), now);
      && s in db'.subs && db'.subs[s].status == Pending
      && (s !in DuePage(cfg, db, now) ==>
            Dispatch.Due(db'.subs[s], now, cfg.staleAfter) && DueCount(cfg, db', now) < DueCount(cfg, db, now))
  {
    PageIsDue(cfg, db, now);
    Dispatch.MarkAllMeaning(db, DuePage(cfg, db, now), now);
    Dispatch.DispatchDrains(db, cfg.dispatchBatch, now, cfg.staleAfter);
    assert s in Dispatch.DueKeys(db, now, cfg.staleAfter, {});
    hide Oldest, Dispatch.MarkAll;
  }

  lemma DispatchRound(cfg: Config, verdicts: Verdicts, st: State, d: nat)
    requires DispatcherAt(st, d).Ready?
    ensures RunRound(cfg, verdicts, st, DispatchBatch(d)).Some?
    ensures var next := RunRound(cfg, verdicts, st, DispatchBatch(d)).value;
            var page := DuePage(cfg, st.db, st.clock);
      && next.db == Dispatch.MarkAll(st.db, page, st.clock) && next.clock == st.clock && Queued(st, next, page)
  {
    PageIsDue(cfg, st.db, st.clock);
    DispatchRuns(cfg, st, d, DuePage(cfg, st.db, st.clock));
    hide Run, Queued, Oldest, Dispatch.MarkAll;
  }

  /** One dispatch batch shrinks the due set, or queues the submission. */
  lemma DispatchCloser(cfg: Config, verdicts: Verdicts, st: State, s: Uuid) returns (round: Round, i: int)
    requires ValidConfig(cfg) && SafetyInv(cfg, st)
    requires s in st.db.subs && Dispatch.Due(st.db.subs[s], st.clock, cfg.staleAfter)
    ensures RunRound(cfg, verdicts, st, round).Some?
    ensures var next := RunRound(cfg, verdicts, st, round).value;
      && SafetyInv(cfg, next) && Later(st, next) && s in next.db.subs && next.db.subs[s].status == Pending
      && (if i >= 0 then JobAt(next, i, s)
          else Dispatch.Due(next.db.subs[s], next.clock, cfg.staleAfter)
               && DueCount(cfg, next.db, next.clock) < DueCount(cfg, st.db, st.clock))
  {
    hide SafetyInv, Later, RunRound, Queued, DuePage, DueCount, JobAt, Dispatch.MarkAll, Dispatch.Due;
    var d := UnusedNat(st.dispatchers.Keys);
    round := DispatchBatch(d);
    DispatchRound(cfg, verdicts, st, d);
    RoundKeeps(cfg, verdicts, st, round);
    BatchTakes(cfg, st.db, st.clock, s);
    i := -1;
    if s in DuePage(cfg, st.db, st.clock) {
      i := PageQueued(st, RunRound(cfg, verdicts, st, round).value, DuePage(cfg, st.db, st.clock), s);
    }
  }

  /** Dispatch batches go on until the submission is in one of them. */
  lemma DispatchUntil(cfg: Config, verdicts: Verdicts, st: State, s: Uuid) returns (rounds: seq<Round>, i: nat)
    requires ValidConfig(cfg) && SafetyInv(cfg, st)
    requires s in st.db.subs && Dispatch.Due(st.db.subs[s], st.clock, cfg.staleAfter)
    ensures RunRounds(cfg, verdicts, st, rounds).Some?
    ensures var st' := RunRounds(cfg, verdicts, st, rounds).value;
      SafetyInv(cfg, st') && Later(st, st') && s in st'.db.subs && st'.db.subs[s].status == Pending && JobAt(st', i, s)
    decreases DueCount(cfg, st.db, st.clock)
  {
    hide RunRound, SafetyInv, RunRounds, JobAt, Later, DueCount;
    var round, k := DispatchCloser(cfg, verdicts, st, s);
    var next := RunRound(cfg, verdicts, st, round).value;
    var rest: seq<Round> := [];
    if k >= 0 {
      i := k;
      EmptyRounds(cfg, verdicts, next);
    } else {
      rest, i := DispatchUntil(cfg, verdicts, next, s);
      LaterTransitive(st, next, RunRounds(cfg, verdicts, next, rest).value);
    }
    OneMore(cfg, verdicts, st, round, rest);
    rounds := [round] + rest;
  }

  lemma PageQueued(st: State, st': State, page: seq<Uuid>, s: Uuid) returns (i: nat)
    requires Queued(st, st', page) && s in page
    ensures JobAt(st', i, s)
  {
    var k :| 0 <= k < |page| && page[k] == s;
    i := |st.stream.undelivered| + k;
  }

  function ExpiredCount(db: Db, now: nat): nat {
    |Leases.ExpiredKeys(db, now, {})|
  }

  function ExpiredPage(cfg: Config, db: Db, now: nat): seq<Uuid> {
    Oldest(Leases.ExpiredKeys(db, now, {}), cfg.reaperBatch)
  }

  lemma PageIsExpired(cfg: Config, db: Db, now: nat)
    ensures NoDuplicates(ExpiredPage(cfg, db, now))
    ensures forall i | 0 <= i < |ExpiredPage(cfg, db, now)| ::
              ExpiredPage(cfg, db, now)[i] in db.subs && Leases.Expired(db.subs[ExpiredPage(cfg, db, now)[i]], now)
  {
    OldestIsPage(Leases.ExpiredKeys(db, now, {}), cfg.reaperBatch);
    hide Oldest;
  }

  /** What a batch means for an expired attempt: reclaimed, or still expired among fewer. */
  lemma ReclaimTakes(cfg: Config, db: Db, now: nat, s: Uuid)
    requires ValidConfig(cfg) && s in db.subs && Leases.Expired(db.subs[s], now)
    ensures var db' := Leases.ReclaimAll(db, ExpiredPage(cfg, db, now), cfg.maxAttempts, now);
      && s in db'.subs
      && (db'.subs[s].status == Completed || Dispatch.Due(db'.subs[s], now, cfg.staleAfter)
          || (Leases.Expired(db'.subs[s], now) && ExpiredCount(db', now) < ExpiredCount(db, now)))
  {
    hide Oldest, Leases.ReclaimAll, ExpiredPage;
    PageIsExpired(cfg, db, now);
    Leases.ReclaimAllMeaning(db, ExpiredPage(cfg, db, now), cfg.maxAttempts, now);
    ReclaimShrinks(cfg, db, now);
    assert s in Leases.ExpiredKeys(db, now, {});
  }

  lemma ReclaimShrinks(cfg: Config, db: Db, now: nat)
    requires ValidConfig(cfg)
    ensures var db' := Leases.ReclaimAll(db, ExpiredPage(cfg, db, now), cfg.maxAttempts, now);
      ExpiredCount(db, now) > 0 ==> ExpiredCount(db', now) < ExpiredCount(db, now)
  {
    Leases.ReclaimDrains(db, cfg.maxAttempts, cfg.reaperBatch, now);
    hide Oldest, Leases.ReclaimAll;
  }

  lemma ReclaimRound(cfg: Config, verdicts: Verdicts, st: State)
    ensures RunRound(cfg, verdicts, st, ReclaimBatch).Some?
    ensures var next := RunRound(cfg, verdicts, st, ReclaimBatch).value;
      && next.db == Leases.ReclaimAll(st.db, ExpiredPage(cfg, st.db, st.clock), cfg.maxAttempts, st.clock)
      && next.clock == st.clock
  {
    PageIsExpired(cfg, st.db, st.clock);
    ReclaimRuns(cfg, st, ExpiredPage(cfg, st.db, st.clock));
    hide Run, Oldest, Leases.ReclaimAll;
  }

  /** One reclaim batch shrinks the expired set, or takes the attempt off it. */
  lemma ReclaimCloser(cfg: Config, verdicts: Verdicts, st: State, s: Uuid)
    requires ValidConfig(cfg) && SafetyInv(cfg, st) && s in st.db.subs && Leases.Expired(st.db.subs[s], st.clock)
    ensures RunRound(cfg, verdicts, st, ReclaimBatch).Some?
    ensures var next := RunRound(cfg, verdicts, st, ReclaimBatch).value;
      && SafetyInv(cfg, next) && Later(st, next) && s in next.db.subs
      && (CompletedIn(next, s) || Dispatch.Due(next.db.subs[s], next.clock, cfg.staleAfter)
          || (Leases.Expired(next.db.subs[s], next.clock)
              && ExpiredCount(next.db, next.clock) < ExpiredCount(st.db, st.clock)))
  {
    hide SafetyInv, Later, RunRound, ExpiredPage, ExpiredCount, Leases.ReclaimAll;
    ReclaimRound(cfg, verdicts, st);
    RoundKeeps(cfg, verdicts, st, ReclaimBatch);
    ReclaimTakes(cfg, st.db, st.clock, s);
  }

  /** Reclaim batches go on until the expired attempt is in one of them. */
  lemma ReclaimUntil(cfg: Config, verdicts: Verdicts, st: State, s: Uuid) returns (rounds: seq<Round>)
    requires ValidConfig(cfg) && SafetyInv(cfg, st) && s in st.db.subs && Leases.Expired(st.db.subs[s], st.clock)
    ensures RunRounds(cfg, verdicts, st, rounds).Some?
    ensures var st' := RunRounds(cfg, verdicts, st, rounds).value;
      && SafetyInv(cfg, st') && Later(st, st') && s in st'.db.subs
      && (CompletedIn(st', s) || Dispatch.Due(st'.db.subs[s], st'.clock, cfg.staleAfter))
    decreases ExpiredCount(st.db, st.clock)
  {
    hide RunRound, SafetyInv, RunRounds, Later, ExpiredCount;
    ReclaimCloser(cfg, verdicts, st, s);
    var next := RunRound(cfg, verdicts, st, ReclaimBatch).value;
    var rest: seq<Round> := [];
    if CompletedIn(next, s) || Dispatch.Due(next.db.subs[s], next.clock, cfg.staleAfter) {
      EmptyRounds(cfg, verdicts, next);
    } else {
      rest := ReclaimUntil(cfg, verdicts, next, s);
      LaterTransitive(st, next, RunRounds(cfg, verdicts, next, rest).value);
    }
    OneMore(cfg, verdicts, st, ReclaimBatch, rest);
    rounds := [ReclaimBatch] + rest;
  }

  lemma WaitRuns(cfg: Config, verdicts: Verdicts, st: State, delta: nat)
    ensures RunRound(cfg, verdicts, st, Wait(delta)) == Some(st.(clock := st.clock + delta))
  {
    var acts := [Tick(delta)];
    assert acts[1..] == [];
    assert Run(cfg, st.(clock := st.clock + delta), acts[1..]) == Some(st.(clock := st.clock + delta));
  }

  /** From a due row to its completion. */
  lemma DueToDone(cfg: Config, verdicts: Verdicts, st: State, s: Uuid) returns (rounds: seq<Round>)
    requires ValidConfig(cfg) && Sound(verdicts) && SafetyInv(cfg, st) && Judgeable(st.db, s)
    requires Dispatch.Due(st.db.subs[s], st.clock, cfg.staleAfter)
    ensures RunRounds(cfg, verdicts, st, rounds).Some? && CompletedIn(RunRounds(cfg, verdicts, st, rounds).value, s)
  {
    hide RunRounds, SafetyInv;
    var first, i := DispatchUntil(cfg, verdicts, st, s);
    var queued := RunRounds(cfg, verdicts, st, first).value;
    JudgeableLater(st.db, queued.db, s);
    var rest := DrainQueue(cfg, verdicts, queued, s, i);
    RoundsAppend(cfg, verdicts, st, first, rest);
    rounds := first + rest;
  }

  /** The stream as it is after losing everything it held. */
  function Emptied(st: State): State {
    st.(stream := EmptyStream.(next := st.stream.next))
  }

  lemma EmptiedSafe(cfg: Config, st: State)
    requires SafetyInv(cfg, st)
    ensures SafetyInv(cfg, Emptied(st))
  {
    var st' := Emptied(st);
    assert PcsInv(st') by {
      forall w | w in st'.workers ensures WorkerFits(st', st'.workers[w]) { assert WorkerFits(st, st.workers[w]); }
      forall r | r in st'.reapers ensures ReaperFits(st', st'.reapers[r]) { assert ReaperFits(st, st.reapers[r]); }
      forall d | d in st'.dispatchers && st'.dispatchers[d].Enqueued? ensures HasJob(st', st'.dispatchers[d].sub) {
        assert HasJob(st, st.dispatchers[d].sub);
      }
    }
    assert MarksInv(st') by {
      forall s | s in st'.db.subs && st'.db.subs[s].enqueued.Some? ensures HasJob(st', s) { assert HasJob(st, s); }
    }
  }

  /** From every reachable state, and even if the stream lost all its entries, a
      finite sequence of ordinary rounds completes any admitted submission of a
      well-formed problem, whatever results the sandbox reports. */
  lemma AlwaysRecoverable(cfg: Config, verdicts: Verdicts, init: State, acts: seq<Action>, st: State,
                          lost: bool, s: Uuid) returns (rounds: seq<Round>, more: seq<Action>)
    requires Reaches(cfg, init, acts, st) && Sound(verdicts) && Judgeable(st.db, s)
    ensures var start := if lost then Emptied(st) else st;
      && RunRounds(cfg, verdicts, start, rounds).Some?
      && CompletedIn(RunRounds(cfg, verdicts, start, rounds).value, s)
      && Run(cfg, start, more) == RunRounds(cfg, verdicts, start, rounds)
  {
    ReachedSafe(cfg, init, acts, st);
    var start := if lost then Emptied(st) else st;
    if lost { EmptiedSafe(cfg, st); }
    hide Reaches, RunRounds;
    rounds := RecoverFrom(cfg, verdicts, start, s);
    more := RoundsAreRuns(cfg, verdicts, start, rounds);
  }

  lemma RecoverFrom(cfg: Config, verdicts: Verdicts, st: State, s: Uuid) returns (rounds: seq<Round>)
    requires ValidConfig(cfg) && Sound(verdicts) && SafetyInv(cfg, st) && Judgeable(st.db, s)
    ensures RunRounds(cfg, verdicts, st, rounds).Some? && CompletedIn(RunRounds(cfg, verdicts, st, rounds).value, s)
  {
    hide RunRounds, RunRound;
    var row := st.db.subs[s];
    if row.status == Completed {
      rounds := [];
      EmptyRounds(cfg, verdicts, st);
      return;
    }
    var delta := if row.status == Running then (if row.lease.Some? then row.lease.value else 0)
                 else if row.enqueued.Some? then row.enqueued.value + cfg.staleAfter else 0;
    WaitRuns(cfg, verdicts, st, delta);
    RoundKeeps(cfg, verdicts, st, Wait(delta));
    var later := st.(clock := st.clock + delta);
    hide SafetyInv;
    var rest: seq<Round>;
    if row.status == Pending {
      rest := DueToDone(cfg, verdicts, later, s);
    } else {
      rest := ExpiredToDone(cfg, verdicts, later, s);
    }
    OneMore(cfg, verdicts, st, Wait(delta), rest);
    rounds := [Wait(delta)] + rest;
  }

  lemma ExpiredToDone(cfg: Config, verdicts: Verdicts, st: State, s: Uuid) returns (rounds: seq<Round>)
    requires ValidConfig(cfg) && Sound(verdicts) && SafetyInv(cfg, st) && Judgeable(st.db, s)
    requires Leases.Expired(st.db.subs[s], st.clock)
    ensures RunRounds(cfg, verdicts, st, rounds).Some? && CompletedIn(RunRounds(cfg, verdicts, st, rounds).value, s)
  {
    hide RunRounds, SafetyInv;
    rounds := ReclaimUntil(cfg, verdicts, st, s);
    var reclaimed := RunRounds(cfg, verdicts, st, rounds).value;
    if !CompletedIn(reclaimed, s) {
      JudgeableLater(st.db, reclaimed.db, s);
      var rest := DueToDone(cfg, verdicts, reclaimed, s);
      RoundsAppend(cfg, verdicts, st, rounds, rest);
      rounds := rounds + rest;
    }
  }
}
