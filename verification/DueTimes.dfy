// Nothing happens before its time: the reaper leaves an attempt alone until its lease
// is over and a match until its deadline, so an attempt that finishes within its lease
// always counts, and a match that ends early was won.
module DueTimes {
  import opened Base
  import opened Rows
  import opened Submissions
  import opened JudgeStore
  import opened JudgeResult
  import opened Stream
  import opened Protocol
  import opened ProtocolSafety
  import opened ProtocolTheorems
  import Dispatch
  import Leases
  import MatchCreation
  import MatchEnd

  // ------------------------------------------------------------------- single steps

  /** The protocol takes a row from its attempt exactly if the attempt is out of lease;
      it is reset while it has attempts left and poisoned otherwise. */
  lemma ReclaimStepIff(cfg: Config, st: State, s: Uuid)
    ensures var next := ReclaimStep(cfg, st, s);
      && (next.Some? <==>
            && s in st.db.subs && st.db.subs[s].status == Running
            && (st.db.subs[s].lease.None? || st.db.subs[s].lease.value <= st.clock))
      && (next.Some? ==>
            var row, row' := st.db.subs[s], next.value.db.subs[s];
            && next.value.db == st.db.(subs := st.db.subs[s := row'])
            && if row.attempts < cfg.maxAttempts then
                 && next.value.log == st.log + [Reset(s)]
                 && row' == row.(status := Pending, token := None, lease := None, enqueued := None)
               else
                 && next.value.log == st.log + [Poisoned(s)]
                 && row' == row.(status := Completed, verdict := Some(VFailed), failure := Some(InfrastructureError),
                                 token := None, lease := None, finishedAt := Some(st.clock)))
  {
  }

  /** It looks at a match for settling exactly if the match is active and its deadline
      has come. */
  lemma SettleStepIff(cfg: Config, st: State, m: Uuid)
    requires SafetyInv(cfg, st)
    ensures var next := SettleStep(st, m);
      && (next.Some? <==>
            m in st.db.matches && st.db.matches[m].status == Active && st.db.matches[m].deadline <= st.clock)
      && (next.Some? ==>
            && m in next.value.db.matches && MatchEnd.SettledExactly(st.db, next.value.db, m, true)
            && next.value.db.subs == st.db.subs
            && forall n | n in st.db.matches && n != m ::
                 n in next.value.db.matches && next.value.db.matches[n] == st.db.matches[n])
  {
    hide DbInv, JobsInv, PcsInv, MarksInv, ResultsInv, AcceptedInv, MatchEnd.FinalizeTx, MatchEnd.SettledExactly;
    if m in MatchEnd.DueKeys(st.db, st.clock, {}) {
      MatchEnd.SettledOne(cfg.maxAttempts, st.db, m);
    }
  }

  // -------------------------------------------------------------- attempts within lease

  /** The log grew by claims and completions only. */
  ghost predicate NoReclaim(before: State, after: State, s: Uuid) {
    && before.log <= after.log
    && forall k | |before.log| <= k < |after.log| :: after.log[k] != Reset(s) && after.log[k] != Poisoned(s)
  }

  /** The running attempt of `s` under `token` stays as it is, or ends by the completion
      of worker `v`. */
  ghost predicate RowStays(st: State, next: State, s: Uuid, v: nat)
    requires s in st.db.subs
  {
    && s in next.db.subs && NoReclaim(st, next, s)
    && (next.db.subs[s] == st.db.subs[s]
        || (next.db.subs[s].status == Completed && WorkerAt(st, v).Executing? && !WorkerAt(next, v).Executing?
            && st.db.subs[s].token == Some(WorkerAt(st, v).claimed.token)))
  }

  lemma ClaimOnRow(cfg: Config, st: State, w: nat, token: Uuid, s: Uuid)
    requires ClaimStep(cfg, st, w, token).Some? && s in st.db.subs && st.db.subs[s].status == Running
    ensures RowStays(st, ClaimStep(cfg, st, w, token).value, s, w)
  {
  }

  lemma FinishOnRow(st: State, w: nat, result: Terminal, s: Uuid)
    requires FinishStep(st, w, result).Some? && s in st.db.subs && st.db.subs[s].status == Running
    ensures RowStays(st, FinishStep(st, w, result).value, s, w)
  {
  }

  lemma WorkerOnRow(cfg: Config, st: State, w: nat, a: WorkerAction, s: Uuid)
    requires WorkerStep(cfg, st, w, a).Some? && s in st.db.subs && st.db.subs[s].status == Running
    ensures RowStays(st, WorkerStep(cfg, st, w, a).value, s, w)
  {
    hide ClaimStep, FinishStep, Deliver, FinalizeEntry;
    match a {
      case Claim(token) => ClaimOnRow(cfg, st, w, token, s);
      case Finish(result) => FinishOnRow(st, w, result, s);
      case _ =>
    }
  }

  lemma SweeperOnRow(cfg: Config, st: State, r: nat, a: SweepAction, s: Uuid)
    requires SweeperStep(cfg, st, r, a).Some? && s in st.db.subs && st.db.subs[s].status == Running
    ensures RowStays(st, SweeperStep(cfg, st, r, a).value, s, 0)
  {
    hide Add, Reassign, FinalizeEntry;
  }

  lemma TableOnRow(cfg: Config, st: State, a: TableAction, s: Uuid)
    requires TableStep(cfg, st, a).Some? && s in st.db.subs && st.db.subs[s].status == Running
    requires st.db.subs[s].lease.Some? && st.clock < st.db.subs[s].lease.value
    ensures RowStays(st, TableStep(cfg, st, a).value, s, 0)
  {
    match a {
      case OpenMatch(p, q, id) => CreatedRows(st.db, p, q, cfg.matchDuration, st.clock, id);
      case Submit(r, id, sampled) => AcceptedRows(st.db, r, sampled, id, s);
      case Settle(m) => SettledRows(st.db, m);
      case _ =>
    }
    hide AcceptTx, MatchCreation.CreateTx, MatchEnd.FinalizeTx;
  }

  lemma CreatedRows(db: Db, a: Uuid, b: Uuid, duration: nat, now: nat, id: Uuid)
    ensures MatchCreation.CreateTx(db, a, b, duration, now, id).0.subs == db.subs
  {
    hide Oldest, MatchCreation.OrderedPair, MatchCreation.MissingOf, MatchCreation.ClaimsOf;
  }

  lemma AcceptedRows(db: Db, r: Request, now: nat, id: Uuid, s: Uuid)
    requires s in db.subs && id !in db.subs
    ensures var db' := AcceptTx(db, r, now, id).0; s in db'.subs && db'.subs[s] == db.subs[s]
  {
  }

  lemma SettledRows(db: Db, m: Uuid)
    ensures MatchEnd.FinalizeTx(db, m).0.subs == db.subs
  {
  }

  lemma StepOnRow(cfg: Config, st: State, a: Action, s: Uuid)
    requires Step(cfg, st, a).Some? && s in st.db.subs && st.db.subs[s].status == Running
    requires st.db.subs[s].lease.Some? && st.clock < st.db.subs[s].lease.value
    ensures RowStays(st, Step(cfg, st, a).value, s, if a.Work? then a.w else 0)
  {
    hide WorkerStep, SweeperStep, TableStep, Add, RowStays;
    match a {
      case Work(w, does) => WorkerOnRow(cfg, st, w, does, s);
      case Reap(r, step) => SweeperOnRow(cfg, st, r, step, s);
      case Table(what) => TableOnRow(cfg, st, what, s);
      case _ => OtherOnRow(cfg, st, a, s);
    }
  }

  lemma OtherOnRow(cfg: Config, st: State, a: Action, s: Uuid)
    requires Step(cfg, st, a).Some? && (a.Tick? || a.Enqueue? || a.Mark?)
    requires s in st.db.subs && st.db.subs[s].status == Running
    ensures RowStays(st, Step(cfg, st, a).value, s, 0)
  {
    hide Add;
  }

  /** The attempt of worker `w` on `c` is untouched, unless `w` has completed it. */
  ghost predicate UnderLease(st: State, w: nat, c: Claimed, until: nat) {
    && c.sub in st.db.subs && c.token in st.tokens
    && (forall v | v in st.workers && v != w && st.workers[v].Executing? :: st.workers[v].claimed.token != c.token)
    && (|| (st.db.subs[c.sub].status == Running && st.db.subs[c.sub].token == Some(c.token)
            && st.db.subs[c.sub].lease == Some(until))
        || (st.db.subs[c.sub].status == Completed
            && !(WorkerAt(st, w).Executing? && WorkerAt(st, w).claimed.token == c.token)))
  }

  /** Tokens of other attempts stay apart. */
  lemma OthersApart(cfg: Config, st: State, a: Action, w: nat, c: Claimed)
    requires PcsInv(st) && Step(cfg, st, a).Some? && c.token in st.tokens
    requires forall v | v in st.workers && v != w && st.workers[v].Executing? :: st.workers[v].claimed.token != c.token
    ensures var next := Step(cfg, st, a).value;
      && c.token in next.tokens
      && (forall v | v in next.workers && v != w && next.workers[v].Executing? ::
            next.workers[v].claimed.token != c.token)
      && (WorkerAt(next, w).Executing? && WorkerAt(next, w).claimed.token == c.token ==>
            WorkerAt(st, w).Executing? && WorkerAt(next, w) == WorkerAt(st, w))
  {
    hide WorkerStep, SweeperStep, TableStep, PcsInv, Add;
    var next := Step(cfg, st, a).value;
    match a {
      case Work(u, does) =>
        WorkerTokens(cfg, st, u, does);
        forall v | v in next.workers && v != w && next.workers[v].Executing?
          ensures next.workers[v].claimed.token != c.token
        {
          assert next.workers[v] == WorkerAt(next, v);
          if v != u { assert WorkerAt(next, v) == WorkerAt(st, v); }
        }
      case Reap(r, step) => SweeperHistory(cfg, st, r, step);
      case Table(what) => TableHistory(cfg, st, what);
      case _ =>
    }
  }

  /** A worker starts executing only under the token it draws for that. */
  lemma WorkerTokens(cfg: Config, st: State, v: nat, a: WorkerAction)
    requires WorkerStep(cfg, st, v, a).Some?
    ensures var next := WorkerStep(cfg, st, v, a).value;
      && st.tokens <= next.tokens
      && (forall u | u != v :: WorkerAt(next, u) == WorkerAt(st, u))
      && (forall u | u != v :: u in next.workers <==> u in st.workers)
      && (WorkerAt(next, v).Executing? ==> a.Claim? && WorkerAt(next, v).claimed.token !in st.tokens)
  {
    hide ClaimStep, FinishStep, Deliver, FinalizeEntry, Announceable;
    match a {
      case Claim(token) => ClaimerTokens(cfg, st, v, token);
      case Finish(result) => FinisherTokens(st, v, result);
      case _ =>
    }
  }

  lemma ClaimerTokens(cfg: Config, st: State, v: nat, token: Uuid)
    requires ClaimStep(cfg, st, v, token).Some?
    ensures var next := ClaimStep(cfg, st, v, token).value;
      && v in next.workers && next.workers == st.workers[v := next.workers[v]] && st.tokens <= next.tokens
      && (next.workers[v].Executing? ==> next.workers[v].claimed.token !in st.tokens)
  {
    hide Announceable;
  }

  lemma FinisherTokens(st: State, v: nat, result: Terminal)
    requires FinishStep(st, v, result).Some?
    ensures var next := FinishStep(st, v, result).value;
      && v in next.workers && next.workers == st.workers[v := next.workers[v]] && st.tokens == next.tokens
      && !next.workers[v].Executing?
  {
    hide CompleteTx, Announceable;
  }

  lemma CompletedOnLog(cfg: Config, st: State, a: Action, s: Uuid)
    requires Step(cfg, st, a).Some? && s in st.db.subs && st.db.subs[s].status == Completed
    ensures NoReclaim(st, Step(cfg, st, a).value, s)
  {
    hide WorkerStep, SweeperStep, TableStep, Add, NoReclaim;
    match a {
      case Work(w, does) => WorkerOnLog(cfg, st, w, does, s);
      case Reap(r, step) => SweeperHistory(cfg, st, r, step); SameLog(st, Step(cfg, st, a).value, s);
      case Table(what) => TableOnLog(cfg, st, what, s);
      case _ => hide Dispatch.MarkTx; SameLog(st, Step(cfg, st, a).value, s);
    }
  }

  lemma SameLog(st: State, next: State, s: Uuid)
    requires next.log == st.log
    ensures NoReclaim(st, next, s)
  {
  }

  lemma WorkerOnLog(cfg: Config, st: State, w: nat, a: WorkerAction, s: Uuid)
    requires WorkerStep(cfg, st, w, a).Some?
    ensures NoReclaim(st, WorkerStep(cfg, st, w, a).value, s)
  {
    hide ClaimTx, CompleteTx, Deliver, FinalizeEntry, Announcing, AfterClaim, EventFor;
  }

  lemma TableOnLog(cfg: Config, st: State, a: TableAction, s: Uuid)
    requires TableStep(cfg, st, a).Some? && s in st.db.subs && st.db.subs[s].status == Completed
    ensures NoReclaim(st, TableStep(cfg, st, a).value, s)
  {
    hide AcceptTx, MatchCreation.CreateTx, MatchEnd.FinalizeTx, MatchEnd.DueKeys;
  }

  lemma StepOnCompleted(cfg: Config, st: State, a: Action, s: Uuid)
    requires ValidConfig(cfg) && SafetyInv(cfg, st) && Step(cfg, st, a).Some?
    requires s in st.db.subs && st.db.subs[s].status == Completed
    ensures var next := Step(cfg, st, a).value;
      s in next.db.subs && next.db.subs[s] == st.db.subs[s] && NoReclaim(st, next, s)
  {
    hide SafetyInv, Step, NoReclaim;
    StepLater(cfg, st, a);
    CompletedOnLog(cfg, st, a, s);
  }

  lemma LeaseStep(cfg: Config, st: State, a: Action, w: nat, c: Claimed, until: nat)
    requires ValidConfig(cfg) && SafetyInv(cfg, st) && Step(cfg, st, a).Some?
    requires UnderLease(st, w, c, until) && st.clock < until
    ensures UnderLease(Step(cfg, st, a).value, w, c, until) && NoReclaim(st, Step(cfg, st, a).value, c.sub)
  {
    SafetyParts(cfg, st);
    hide SafetyInv, DbInv, JobsInv, StreamOk, PcsInv, MarksInv, ResultsInv, AcceptedInv, Step, NoReclaim;
    var next := Step(cfg, st, a).value;
    OthersApart(cfg, st, a, w, c);
    if st.db.subs[c.sub].status == Running {
      StepOnRow(cfg, st, a, c.sub);
    } else {
      StepOnCompleted(cfg, st, a, c.sub);
    }
  }

  lemma {:induction false} LeaseRun(cfg: Config, st: State, acts: seq<Action>, w: nat, c: Claimed, until: nat)
    requires ValidConfig(cfg) && SafetyInv(cfg, st) && UnderLease(st, w, c, until)
    requires Run(cfg, st, acts).Some? && Run(cfg, st, acts).value.clock < until
    ensures UnderLease(Run(cfg, st, acts).value, w, c, until) && NoReclaim(st, Run(cfg, st, acts).value, c.sub)
    decreases |acts|
  {
    hide SafetyInv, Step, UnderLease;
    if acts == [] {
    } else {
      var next := Step(cfg, st, acts[0]).value;
      StepKeeps(cfg, st, acts[0]);
      StepLater(cfg, st, acts[0]);
      RunKeeps(cfg, next, acts[1..]);
      assert Later(next, Run(cfg, next, acts[1..]).value);
      LeaseStep(cfg, st, acts[0], w, c, until);
      LeaseRun(cfg, next, acts[1..], w, c, until);
    }
  }

  /** An acquiring claim puts its submission under lease. */
  lemma ClaimStarts(cfg: Config, st: State, w: nat, token: Uuid)
    requires SafetyInv(cfg, st) && ClaimStep(cfg, st, w, token).Some?
    requires var next := ClaimStep(cfg, st, w, token).value; w in next.workers && next.workers[w].Executing?
    ensures var next := ClaimStep(cfg, st, w, token).value;
      && UnderLease(next, w, next.workers[w].claimed, st.clock + cfg.attemptLease)
      && next.workers[w].claimed.token == token
  {
    hide SafetyInv, JobsInv, StreamOk, PcsInv, MarksInv, ResultsInv, AcceptedInv, DbInv;
    SafetyParts(cfg, st);
    ClaimTokens(st);
    AcquiringClaim(cfg, st, w, token);
    ClaimWrites(cfg.maxAttempts, st.db, st.workers[w].job.sub, token, cfg.attemptLease, st.clock);
    hide ClaimTx, ClaimStep;
  }

  /** The parts of the state after it. */
  lemma AcquiringClaim(cfg: Config, st: State, w: nat, token: Uuid)
    requires ClaimStep(cfg, st, w, token).Some?
    requires var next := ClaimStep(cfg, st, w, token).value; w in next.workers && next.workers[w].Executing?
    ensures w in st.workers && st.workers[w].Received? && st.workers[w].job.JobFor? && token !in st.tokens
    ensures var next := ClaimStep(cfg, st, w, token).value;
      var (db, res) := ClaimTx(st.db, st.workers[w].job.sub, token, cfg.attemptLease, st.clock);
      && res.Acquired? && next.workers[w].claimed == res.claimed && next.db == db
      && next.tokens == st.tokens + {token} && next.workers == st.workers[w := next.workers[w]]
  {
    hide ClaimTx, Announceable;
  }

  lemma ClaimWrites(max: nat, db: Db, s: Uuid, token: Uuid, lease: nat, now: nat)
    requires DbInv(max, db) && ClaimTx(db, s, token, lease, now).1.Acquired?
    ensures var (db', res) := ClaimTx(db, s, token, lease, now);
      && res.claimed.sub == s && res.claimed.token == token && s in db'.subs
      && db'.subs[s].status == Running && db'.subs[s].token == Some(token) && db'.subs[s].lease == Some(now + lease)
  {
    hide ClaimTx, ClaimFits, Owns;
    ClaimMeaning(max, db, s, token, lease, now);
    ClaimSucceedsOn(max, db, s, token, lease, now);
  }

  lemma ClaimSucceedsOn(max: nat, db: Db, s: Uuid, token: Uuid, lease: nat, now: nat)
    requires ClaimTx(db, s, token, lease, now).1.Acquired?
    ensures s in db.subs
  {
  }

  lemma ClaimTokens(st: State)
    requires PcsInv(st)
    ensures forall v | v in st.workers && st.workers[v].Executing? :: st.workers[v].claimed.token in st.tokens
  {
    forall v | v in st.workers && st.workers[v].Executing? ensures st.workers[v].claimed.token in st.tokens {
      assert WorkerFits(st, st.workers[v]);
    }
  }

  /** Within `attemptLease` of a claim, nothing takes the submission from the attempt: it
      is neither reset nor poisoned, and a completion that the worker makes by then is
      applied. */
  lemma LeaseProtects(cfg: Config, init: State, acts: seq<Action>, st: State, w: nat, token: Uuid,
                      more: seq<Action>, later: State)
    requires Reaches(cfg, init, acts, st) && Step(cfg, st, Work(w, Claim(token))).Some?
    requires var next := Step(cfg, st, Work(w, Claim(token))).value;
      && w in next.workers && next.workers[w].Executing?
      && Run(cfg, next, more) == Some(later) && later.clock < st.clock + cfg.attemptLease
    ensures var next := Step(cfg, st, Work(w, Claim(token))).value;
      var c := next.workers[w].claimed;
      && next.log <= later.log
      && (forall k | |next.log| <= k < |later.log| :: later.log[k] != Reset(c.sub) && later.log[k] != Poisoned(c.sub))
      && (forall result | ValidTerminal(result, c.tests) && w in later.workers && later.workers[w].Executing?
                          && later.workers[w].claimed == c :: Counts(cfg, later, w, c, result))
  {
    hide SafetyInv, Step, Run, NoReclaim, UnderLease, Counts, ValidTerminal;
    ReachedSafe(cfg, init, acts, st);
    ClaimIsStep(cfg, st, w, token);
    var next := Step(cfg, st, Work(w, Claim(token))).value;
    var c := next.workers[w].claimed;
    StepKeeps(cfg, st, Work(w, Claim(token)));
    ClaimStarts(cfg, st, w, token);
    LeaseRun(cfg, next, more, w, c, st.clock + cfg.attemptLease);
    RunKeeps(cfg, next, more);
    NoReclaimMeans(next, later, c.sub);
    AllCount(cfg, later, w, c, st.clock + cfg.attemptLease);
  }

  lemma ClaimIsStep(cfg: Config, st: State, w: nat, token: Uuid)
    ensures Step(cfg, st, Work(w, Claim(token))) == ClaimStep(cfg, st, w, token)
  {
  }

  lemma NoReclaimMeans(before: State, after: State, s: Uuid)
    requires NoReclaim(before, after, s)
    ensures before.log <= after.log
    ensures forall k | |before.log| <= k < |after.log| :: after.log[k] != Reset(s) && after.log[k] != Poisoned(s)
  {
  }

  /** The completion goes through, and its result is stored and handed out. */
  ghost predicate Counts(cfg: Config, st: State, w: nat, c: Claimed, result: Terminal) {
    var end := Step(cfg, st, Work(w, Finish(result)));
    && end.Some? && c.sub in end.value.returned && end.value.log == st.log + [Ended(c.sub, c.token)]
    && c.sub in end.value.db.subs && end.value.db.subs[c.sub].status == Completed
    && end.value.db.subs[c.sub].verdict == Some(result.verdict)
    && end.value.db.subs[c.sub].failure == result.failure && end.value.db.subs[c.sub].passed == result.passed
  }

  lemma HeldCounts(cfg: Config, st: State, w: nat, c: Claimed, result: Terminal, until: nat)
    requires SafetyInv(cfg, st) && UnderLease(st, w, c, until) && ValidTerminal(result, c.tests)
    requires w in st.workers && st.workers[w].Executing? && st.workers[w].claimed == c
    ensures Counts(cfg, st, w, c, result)
  {
    hide SafetyInv, JobsInv, StreamOk, PcsInv, MarksInv, ResultsInv, AcceptedInv, ValidTerminal, ClaimFits, CompleteTx,
      DbInv, Owns, TellsRow, Announceable;
    SafetyParts(cfg, st);
    WorkerPcFits(st, w);
    FitsOwns(st.db, c);
    CompleteMeaning(cfg.maxAttempts, st.db, c, result, st.clock);
    AppliedRow(st.db, c, result, st.clock);
  }

  lemma AllCount(cfg: Config, st: State, w: nat, c: Claimed, until: nat)
    requires SafetyInv(cfg, st) && UnderLease(st, w, c, until)
    ensures forall result | ValidTerminal(result, c.tests) && w in st.workers && st.workers[w].Executing?
                            && st.workers[w].claimed == c :: Counts(cfg, st, w, c, result)
  {
    hide SafetyInv, UnderLease, Counts, ValidTerminal;
    forall result | ValidTerminal(result, c.tests) && w in st.workers && st.workers[w].Executing?
                    && st.workers[w].claimed == c
      ensures Counts(cfg, st, w, c, result)
    {
      HeldCounts(cfg, st, w, c, result, until);
    }
  }

  lemma AppliedRow(db: Db, c: Claimed, r: Terminal, now: nat)
    requires CompleteTx(db, c, r, now).1.Applied?
    ensures c.sub in CompleteTx(db, c, r, now).0.subs
  {
  }

  lemma FitsOwns(db: Db, c: Claimed)
    requires ClaimFits(db, c) && db.subs[c.sub].status == Running && db.subs[c.sub].token == Some(c.token)
    ensures Owns(db.subs[c.sub], c)
  {
  }

  // ------------------------------------------------------------------ matches and deadlines

  /** The match has a winner, and a completed submission of the winner passes. */
  ghost predicate WonByPass(db: Db, m: Uuid)
    requires m in db.matches
  {
    && db.matches[m].winner.Some?
    && exists s :: s in db.subs && db.subs[s].matchId == m && db.subs[s].player == db.matches[m].winner.value
                   && db.subs[s].status == Completed && db.subs[s].verdict == Some(VPass)
  }

  ghost predicate EarlyWon(st: State) {
    forall m | m in st.db.matches && st.db.matches[m].status == Finished && st.clock < st.db.matches[m].deadline ::
      WonByPass(st.db, m)
  }

  /** A step that finishes a match settles it at its deadline or completes a pass. */
  lemma FinishedBy(cfg: Config, st: State, a: Action, m: Uuid)
    requires SafetyInv(cfg, st) && Step(cfg, st, a).Some?
    requires var next := Step(cfg, st, a).value;
      && m in next.db.matches && next.db.matches[m].status == Finished
      && !(m in st.db.matches && st.db.matches[m].status == Finished)
    ensures var next := Step(cfg, st, a).value;
      next.db.matches[m].deadline <= next.clock || WonByPass(next.db, m)
  {
    SafetyParts(cfg, st);
    hide SafetyInv, DbInv, JobsInv, StreamOk, PcsInv, MarksInv, ResultsInv, AcceptedInv, WonByPass;
    match a {
      case Work(w, does) => WorkerFinishes(cfg, st, w, does, m);
      case Table(what) => TableFinishes(cfg, st, what, m);
      case Reap(r, step) => SweeperMatches(cfg, st, r, step);
      case Mark(d) => hide Dispatch.MarkTx; MarkMatches(st.db, st.dispatchers[d].sub, st.clock);
      case _ =>
    }
  }

  lemma MarkMatches(db: Db, s: Uuid, now: nat)
    ensures Dispatch.MarkTx(db, s, now).matches == db.matches
  {
  }

  lemma SweeperMatches(cfg: Config, st: State, r: nat, a: SweepAction)
    requires SweeperStep(cfg, st, r, a).Some?
    ensures SweeperStep(cfg, st, r, a).value.db.matches == st.db.matches
  {
    hide Add, Reassign, FinalizeEntry;
  }

  lemma WorkerFinishes(cfg: Config, st: State, w: nat, a: WorkerAction, m: Uuid)
    requires DbInv(cfg.maxAttempts, st.db) && PcsInv(st) && WorkerStep(cfg, st, w, a).Some?
    requires var next := WorkerStep(cfg, st, w, a).value;
      && m in next.db.matches && next.db.matches[m].status == Finished
      && !(m in st.db.matches && st.db.matches[m].status == Finished)
    ensures WonByPass(WorkerStep(cfg, st, w, a).value.db, m)
  {
    hide DbInv, Deliver, FinalizeEntry, ClaimTx, CompleteTx, WonByPass, PcsInv;
    match a {
      case Claim(token) =>
        if st.workers[w].job.JobFor? {
          ClaimMatches(st.db, st.workers[w].job.sub, token, cfg.attemptLease, st.clock);
        }
        assert false;
      case Finish(result) =>
        WorkerPcFits(st, w);
        CompletionWins(cfg.maxAttempts, st.db, st.workers[w].claimed, result, st.clock, m);
      case _ => assert false;
    }
  }

  lemma ClaimMatches(db: Db, s: Uuid, token: Uuid, lease: nat, now: nat)
    ensures ClaimTx(db, s, token, lease, now).0.matches == db.matches
  {
  }

  lemma CompletionWins(max: nat, db: Db, c: Claimed, r: Terminal, now: nat, m: Uuid)
    requires DbInv(max, db) && ClaimFits(db, c) && ValidTerminal(r, c.tests)
    requires var db' := CompleteTx(db, c, r, now).0;
      && m in db'.matches && db'.matches[m].status == Finished
      && !(m in db.matches && db.matches[m].status == Finished)
    ensures WonByPass(CompleteTx(db, c, r, now).0, m)
  {
    hide DbInv, ValidTerminal;
    CompleteMeaning(max, db, c, r, now);
    if Owns(db.subs[c.sub], c) {
      CompleteDecides(max, db, c, r, now);
      hide CompleteTx;
      assert c.sub in CompleteTx(db, c, r, now).0.subs;
    }
  }

  lemma TableFinishes(cfg: Config, st: State, a: TableAction, m: Uuid)
    requires DbInv(cfg.maxAttempts, st.db) && TableStep(cfg, st, a).Some?
    requires var next := TableStep(cfg, st, a).value;
      && m in next.db.matches && next.db.matches[m].status == Finished
      && !(m in st.db.matches && st.db.matches[m].status == Finished)
    ensures var next := TableStep(cfg, st, a).value; next.db.matches[m].deadline <= next.clock
  {
    hide DbInv, AcceptTx, MatchCreation.CreateTx, MatchEnd.FinalizeTx, Leases.ReclaimRow;
    match a {
      case OpenMatch(p, q, id) =>
        CreatedOnly(st.db, p, q, cfg.matchDuration, st.clock, id, m);
        assert false;
      case Submit(r, id, sampled) =>
        AcceptedMatches(st.db, r, sampled, id);
        assert false;
      case Reclaim(s) =>
        ReclaimedMatches(st.db, s, cfg.maxAttempts, st.clock);
        assert false;
      case Settle(n) => SettledOnly(cfg.maxAttempts, st.db, n, m);
      case _ => assert false;
    }
  }

  lemma CreatedOnly(db: Db, a: Uuid, b: Uuid, duration: nat, now: nat, id: Uuid, m: Uuid)
    requires id !in db.matches
    ensures var db' := MatchCreation.CreateTx(db, a, b, duration, now, id).0;
      m in db'.matches ==> db'.matches[m].status == Active || (m in db.matches && db'.matches[m] == db.matches[m])
  {
    hide MatchCreation.CreateTx;
    MatchCreation.CreateMeaning(db, a, b, duration, now, id);
  }

  lemma AcceptedMatches(db: Db, r: Request, now: nat, id: Uuid)
    ensures AcceptTx(db, r, now, id).0.matches == db.matches
  {
  }

  lemma ReclaimedMatches(db: Db, s: Uuid, max: nat, now: nat)
    ensures Leases.ReclaimRow(db, s, max, now).matches == db.matches
  {
  }

  lemma SettledOnly(max: nat, db: Db, n: Uuid, m: Uuid)
    requires DbInv(max, db) && n in db.matches && db.matches[n].status == Active
    ensures var db' := MatchEnd.FinalizeTx(db, n).0;
      && db'.matches.Keys == db.matches.Keys
      && (m in db.matches ==> db'.matches[m].deadline == db.matches[m].deadline)
      && (m in db.matches && m != n ==> db'.matches[m] == db.matches[m])
  {
    hide DbInv, MatchEnd.FinalizeTx, MatchEnd.WonByScore;
    MatchEnd.SettledOne(max, db, n);
  }

  /** What was won stays won. */
  lemma WonStays(a: Db, b: Db, m: Uuid)
    requires Evolves(a, b) && m in a.matches && a.matches[m].status == Finished && WonByPass(a, m)
    ensures m in b.matches && b.matches[m] == a.matches[m] && WonByPass(b, m)
  {
    var s :| s in a.subs && a.subs[s].matchId == m && a.subs[s].player == a.matches[m].winner.value
             && a.subs[s].status == Completed && a.subs[s].verdict == Some(VPass);
    assert s in b.subs && b.subs[s] == a.subs[s];
  }

  lemma EarlyStep(cfg: Config, st: State, a: Action)
    requires ValidConfig(cfg) && SafetyInv(cfg, st) && EarlyWon(st) && Step(cfg, st, a).Some?
    ensures EarlyWon(Step(cfg, st, a).value)
  {
    hide SafetyInv, Step, WonByPass, Evolves;
    StepLater(cfg, st, a);
    var next := Step(cfg, st, a).value;
    forall m | m in next.db.matches && next.db.matches[m].status == Finished && next.clock < next.db.matches[m].deadline
      ensures WonByPass(next.db, m)
    {
      if m in st.db.matches && st.db.matches[m].status == Finished {
        FinishedStays(st.db, next.db, m);
        WonStays(st.db, next.db, m);
      } else {
        FinishedBy(cfg, st, a, m);
      }
    }
  }

  lemma FinishedStays(a: Db, b: Db, m: Uuid)
    requires Evolves(a, b) && m in a.matches && a.matches[m].status == Finished
    ensures m in b.matches && b.matches[m] == a.matches[m]
  {
  }

  lemma {:induction false} EarlyRun(cfg: Config, st: State, acts: seq<Action>)
    requires ValidConfig(cfg) && SafetyInv(cfg, st) && EarlyWon(st) && Run(cfg, st, acts).Some?
    ensures EarlyWon(Run(cfg, st, acts).value)
    decreases |acts|
  {
    hide SafetyInv, Step, EarlyWon;
    if acts != [] {
      StepKeeps(cfg, st, acts[0]);
      EarlyStep(cfg, st, acts[0]);
      EarlyRun(cfg, Step(cfg, st, acts[0]).value, acts[1..]);
    }
  }

  /** In every reachable state a match that is over before its deadline was won by a
      completed submission of its winner that passes all tests. */
  lemma EarlyEndsAreWon(cfg: Config, init: State, acts: seq<Action>, st: State, m: Uuid)
    requires Reaches(cfg, init, acts, st) && m in st.db.matches
    requires st.db.matches[m].status == Finished && st.clock < st.db.matches[m].deadline
    ensures st.db.matches[m].winner.Some?
    ensures exists s :: s in st.db.subs && st.db.subs[s].matchId == m
                        && st.db.subs[s].player == st.db.matches[m].winner.value
                        && st.db.subs[s].status == Completed && st.db.subs[s].verdict == Some(VPass)
                        && st.db.subs[s].passed == TotalTests(st.db, m)
  {
    InitSafe(cfg, init);
    assert EarlyWon(init);
    hide SafetyInv, Run, Init;
    EarlyRun(cfg, init, acts);
    RunKeeps(cfg, init, acts);
    assert WonByPass(st.db, m);
    var s :| s in st.db.subs && st.db.subs[s].matchId == m && st.db.subs[s].player == st.db.matches[m].winner.value
             && st.db.subs[s].status == Completed && st.db.subs[s].verdict == Some(VPass);
    SafetyParts(cfg, st);
    PassIsFull(cfg.maxAttempts, st.db, s);
  }

  lemma PassIsFull(max: nat, db: Db, s: Uuid)
    requires DbInv(max, db) && s in db.subs && db.subs[s].verdict == Some(VPass)
    ensures db.subs[s].matchId in db.matches && db.subs[s].passed == TotalTests(db, db.subs[s].matchId)
  {
    assert SubOk(db, max, db.subs[s]);
  }
}
