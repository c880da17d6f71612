// The lifecycle log of a run: attempts are fenced by their tokens, results are
// written once, and the attempt cap bounds everything a submission can go through.
module ProtocolHistory {
  import opened Base
  import opened Rows
  import opened Submissions
  import opened JudgeStore
  import opened JudgeResult
  import opened Stream
  import opened Protocol
  import opened ProtocolSafety
  import Leases
  import MatchEnd
  import MatchCreation
  import Dispatch

  /** The latest transition of a submission. */
  function Last(log: seq<Life>, s: Uuid): (l: Option<Life>)
    ensures l.Some? ==> l.value.sub == s
    decreases |log|
  {
    if log == [] then None
    else if log[|log| - 1].sub == s then Some(log[|log| - 1])
    else Last(log[..|log| - 1], s)
  }

  /** How often a submission started an attempt, and how often it moved at all. */
  function Starts(log: seq<Life>, s: Uuid): nat
    decreases |log|
  {
    if log == [] then 0
    else Starts(log[..|log| - 1], s) + if log[|log| - 1].sub == s && log[|log| - 1].Started? then 1 else 0
  }

  function Moves(log: seq<Life>, s: Uuid): nat
    decreases |log|
  {
    if log == [] then 0
    else Moves(log[..|log| - 1], s) + if log[|log| - 1].sub == s then 1 else 0
  }

  /** The lifecycle automaton. */
  predicate Permitted(prev: Option<Life>, l: Life) {
    match l
    case Started(_, _) => prev.None? || prev.value.Reset?
    case Reset(_) => prev.Some? && prev.value.Started?
    case Poisoned(_) => prev.Some? && prev.value.Started?
    case Ended(s, t) => prev == Some(Started(s, t))
  }

  ghost predicate LogOk(log: seq<Life>) {
    forall i | 0 <= i < |log| :: Permitted(Last(log[..i], log[i].sub), log[i])
  }

  ghost predicate FreshTokens(st: State) {
    && (forall i | 0 <= i < |st.log| && st.log[i].Started? :: st.log[i].token in st.tokens)
    && (forall i, j | 0 <= i < j < |st.log| && st.log[i].Started? && st.log[j].Started? ::
          st.log[i].token != st.log[j].token)
  }

  predicate Agrees(row: Submission, last: Option<Life>) {
    if last.None? || last.value.Reset? then row.status == Pending
    else if last.value.Started? then row.status == Running && row.token == Some(last.value.token)
    else row.status == Completed
  }

  /** What is left to go through: (remaining attempts, status) read lexicographically. */
  function Rank(row: Submission, max: nat): int {
    match row.status
    case Completed => 0
    case Pending => 2 * (max - row.attempts)
    case Running => 2 * (max - row.attempts) + 1
  }

  ghost predicate RowLogged(cfg: Config, st: State, s: Uuid) {
    if s in st.db.subs then
      && Agrees(st.db.subs[s], Last(st.log, s))
      && st.db.subs[s].attempts == Starts(st.log, s)
      && Rank(st.db.subs[s], cfg.maxAttempts) + Moves(st.log, s) <= 2 * cfg.maxAttempts
    else Last(st.log, s).None? && Starts(st.log, s) == 0 && Moves(st.log, s) == 0
  }

  ghost predicate LogInv(cfg: Config, st: State) {
    LogOk(st.log) && FreshTokens(st) && forall s :: RowLogged(cfg, st, s)
  }

  // ------------------------------------------------------------------ step by step

  predicate SameLife(a: Submission, b: Submission) {
    a.status == b.status && a.attempts == b.attempts && a.token == b.token
  }

  /** No row moves in its lifecycle; new rows start pending. */
  ghost predicate Quiet(db: Db, db': Db) {
    && (forall s | s in db.subs :: s in db'.subs && SameLife(db.subs[s], db'.subs[s]))
    && (forall s | s in db'.subs && s !in db.subs :: db'.subs[s].status == Pending && db'.subs[s].attempts == 0)
  }

  lemma QuietKeeps(cfg: Config, st: State, st': State)
    requires LogInv(cfg, st) && Quiet(st.db, st'.db) && st'.log == st.log && st.tokens <= st'.tokens
    ensures LogInv(cfg, st')
  {
    forall s ensures RowLogged(cfg, st', s) { assert RowLogged(cfg, st, s); }
  }

  /** Exactly one row makes the move `l`, from the status the move starts in. */
  ghost predicate RowMoves(max: nat, db: Db, db': Db, l: Life) {
    && l.sub in db.subs && db'.subs.Keys == db.subs.Keys
    && (forall s | s in db.subs && s != l.sub :: SameLife(db.subs[s], db'.subs[s]))
    && Agrees(db'.subs[l.sub], Some(l))
    && db.subs[l.sub].status == (if l.Started? then Pending else Running)
    && (l.Ended? ==> db.subs[l.sub].token == Some(l.token))
    && db'.subs[l.sub].attempts == db.subs[l.sub].attempts + (if l.Started? then 1 else 0)
    && Rank(db'.subs[l.sub], max) < Rank(db.subs[l.sub], max)
  }

  lemma Appended(log: seq<Life>, l: Life, s: Uuid)
    ensures Last(log + [l], s) == if l.sub == s then Some(l) else Last(log, s)
    ensures Starts(log + [l], s) == Starts(log, s) + if l.sub == s && l.Started? then 1 else 0
    ensures Moves(log + [l], s) == Moves(log, s) + if l.sub == s then 1 else 0
  {
  }

  lemma AppendedOk(log: seq<Life>, l: Life)
    requires LogOk(log) && Permitted(Last(log, l.sub), l)
    ensures LogOk(log + [l])
  {
    forall i | 0 <= i < |log + [l]|
      ensures Permitted(Last((log + [l])[..i], (log + [l])[i].sub), (log + [l])[i])
    {
      if i < |log| {
        assert (log + [l])[..i] == log[..i];
      } else {
        assert (log + [l])[..i] == log;
      }
    }
  }

  lemma MovedKeeps(cfg: Config, st: State, st': State, l: Life)
    requires LogInv(cfg, st) && RowMoves(cfg.maxAttempts, st.db, st'.db, l)
    requires st'.log == st.log + [l] && st.tokens <= st'.tokens
    requires l.Started? ==> l.token !in st.tokens && l.token in st'.tokens
    ensures LogInv(cfg, st')
  {
    assert Permitted(Last(st.log, l.sub), l) by { assert RowLogged(cfg, st, l.sub); }
    AppendedOk(st.log, l);
    TokensStayFresh(st, st', l);
    forall s ensures RowLogged(cfg, st', s) { MovedRow(cfg, st, st', l, s); }
  }

  lemma TokensStayFresh(st: State, st': State, l: Life)
    requires FreshTokens(st) && st'.log == st.log + [l] && st.tokens <= st'.tokens
    requires l.Started? ==> l.token !in st.tokens && l.token in st'.tokens
    ensures FreshTokens(st')
  {
  }

  lemma MovedRow(cfg: Config, st: State, st': State, l: Life, s: Uuid)
    requires RowLogged(cfg, st, s) && RowMoves(cfg.maxAttempts, st.db, st'.db, l) && st'.log == st.log + [l]
    ensures RowLogged(cfg, st', s)
  {
    Appended(st.log, l, s);
  }

  // -------------------------------------------------- what each transaction moves

  lemma QuietSame(db: Db)
    ensures Quiet(db, db)
  {
  }

  lemma ClaimMoves(max: nat, db: Db, s: Uuid, token: Uuid, lease: nat, now: nat)
    requires SubsOk(max, db)
    ensures var (db', res) := ClaimTx(db, s, token, lease, now);
      if res.Acquired? then RowMoves(max, db, db', Started(s, token)) else Quiet(db, db')
  {
    hide SubsOk;
    if ClaimTx(db, s, token, lease, now).1.Acquired? {
      ClaimedRowOk(max, db, s);
      hide SubOk, Quiet;
    } else {
      hide RowMoves;
    }
  }

  lemma ClaimedRowOk(max: nat, db: Db, s: Uuid)
    requires SubsOk(max, db)
    ensures s in db.subs ==> SubOk(db, max, db.subs[s]) && db.subs[s].attempts <= max
    ensures s in db.subs && db.subs[s].status == Pending ==> db.subs[s].attempts < max
  {
  }

  lemma CompleteMoves(max: nat, db: Db, c: Claimed, r: Terminal, now: nat)
    requires SubsOk(max, db)
    ensures var (db', res) := CompleteTx(db, c, r, now);
      if res.Applied? then RowMoves(max, db, db', Ended(c.sub, c.token)) else Quiet(db, db')
  {
    if CompleteTx(db, c, r, now).1.Applied? {
      assert SubOk(db, max, db.subs[c.sub]);
    }
  }

  lemma ReclaimMoves(max: nat, db: Db, s: Uuid, now: nat)
    requires SubsOk(max, db) && s in db.subs && Leases.Expired(db.subs[s], now)
    ensures RowMoves(max, db, Leases.ReclaimRow(db, s, max, now),
                     if db.subs[s].attempts < max then Reset(s) else Poisoned(s))
  {
    assert SubOk(db, max, db.subs[s]);
  }

  lemma CreateQuiet(db: Db, a: Uuid, b: Uuid, duration: nat, now: nat, id: Uuid)
    requires id !in db.matches
    ensures Quiet(db, MatchCreation.CreateTx(db, a, b, duration, now, id).0)
  {
  }

  lemma AcceptQuiet(db: Db, r: Request, now: nat, id: Uuid)
    requires id !in db.subs
    ensures Quiet(db, AcceptTx(db, r, now, id).0)
  {
  }

  lemma SettleQuiet(db: Db, m: Uuid)
    ensures Quiet(db, MatchEnd.FinalizeTx(db, m).0)
  {
  }

  lemma MarkQuiet(db: Db, s: Uuid, now: nat)
    ensures Quiet(db, Dispatch.MarkTx(db, s, now))
  {
  }

  lemma TableLog(cfg: Config, st: State, a: TableAction)
    requires SubsOk(cfg.maxAttempts, st.db) && LogInv(cfg, st) && TableStep(cfg, st, a).Some?
    ensures LogInv(cfg, TableStep(cfg, st, a).value)
  {
    hide SubsOk, LogInv, Quiet, RowMoves;
    hide AcceptTx, MatchCreation.CreateTx, MatchEnd.FinalizeTx, Leases.ReclaimRow;
    var st' := TableStep(cfg, st, a).value;
    match a {
      case Register(u) => RegisterQuiet(st.db, u); QuietKeeps(cfg, st, st');
      case OpenMatch(p, q, id) => CreateQuiet(st.db, p, q, cfg.matchDuration, st.clock, id); QuietKeeps(cfg, st, st');
      case Submit(r, id, sampled) => AcceptQuiet(st.db, r, sampled, id); QuietKeeps(cfg, st, st');
      case Settle(m) => SettleQuiet(st.db, m); QuietKeeps(cfg, st, st');
      case Reclaim(sub) =>
        ReclaimMoves(cfg.maxAttempts, st.db, sub, st.clock);
        MovedKeeps(cfg, st, st', if st.db.subs[sub].attempts < cfg.maxAttempts then Reset(sub) else Poisoned(sub));
    }
  }

  lemma RegisterQuiet(db: Db, u: Uuid)
    ensures Quiet(db, db.(users := db.users + {u}))
  {
  }

  lemma ClaimLog(cfg: Config, st: State, w: nat, token: Uuid)
    requires SubsOk(cfg.maxAttempts, st.db) && LogInv(cfg, st) && ClaimStep(cfg, st, w, token).Some?
    ensures LogInv(cfg, ClaimStep(cfg, st, w, token).value)
  {
    hide SubsOk, LogInv, Quiet, RowMoves, ClaimTx, AfterClaim;
    var st' := ClaimStep(cfg, st, w, token).value;
    var job := st.workers[w].job;
    if job.JobFor? {
      ClaimMoves(cfg.maxAttempts, st.db, job.sub, token, cfg.attemptLease, st.clock);
      if ClaimTx(st.db, job.sub, token, cfg.attemptLease, st.clock).1.Acquired? {
        MovedKeeps(cfg, st, st', Started(job.sub, token));
      } else {
        QuietKeeps(cfg, st, st');
      }
    } else {
      QuietSame(st.db);
      QuietKeeps(cfg, st, st');
    }
  }

  lemma FinishLog(cfg: Config, st: State, w: nat, result: Terminal)
    requires SubsOk(cfg.maxAttempts, st.db) && LogInv(cfg, st) && FinishStep(st, w, result).Some?
    ensures LogInv(cfg, FinishStep(st, w, result).value)
  {
    hide SubsOk, LogInv, Quiet, RowMoves, CompleteTx, AfterFinish;
    var st' := FinishStep(st, w, result).value;
    var c := st.workers[w].claimed;
    CompleteMoves(cfg.maxAttempts, st.db, c, result, st.clock);
    if CompleteTx(st.db, c, result, st.clock).1.Applied? {
      MovedKeeps(cfg, st, st', Ended(c.sub, c.token));
    } else {
      QuietKeeps(cfg, st, st');
    }
  }

  lemma WorkerLog(cfg: Config, st: State, w: nat, a: WorkerAction)
    requires SubsOk(cfg.maxAttempts, st.db) && LogInv(cfg, st) && WorkerStep(cfg, st, w, a).Some?
    ensures LogInv(cfg, WorkerStep(cfg, st, w, a).value)
  {
    hide SubsOk, LogInv, Quiet, ClaimStep, FinishStep, Deliver, FinalizeEntry, EventFor;
    match a {
      case Claim(token) => ClaimLog(cfg, st, w, token);
      case Finish(result) => FinishLog(cfg, st, w, result);
      case _ =>
        QuietSame(st.db);
        QuietKeeps(cfg, st, WorkerStep(cfg, st, w, a).value);
    }
  }

  lemma SweeperLog(cfg: Config, st: State, r: nat, a: SweepAction)
    requires LogInv(cfg, st) && SweeperStep(cfg, st, r, a).Some?
    ensures LogInv(cfg, SweeperStep(cfg, st, r, a).value)
  {
    hide LogInv, Quiet, Add, Reassign, FinalizeEntry, Dispatch.MarkTx;
    QuietSame(st.db);
    if a.Remark? { MarkQuiet(st.db, st.reapers[r].sub, st.clock); }
    QuietKeeps(cfg, st, SweeperStep(cfg, st, r, a).value);
  }

  lemma StepLog(cfg: Config, st: State, a: Action)
    requires SafetyInv(cfg, st) && LogInv(cfg, st) && Step(cfg, st, a).Some?
    ensures LogInv(cfg, Step(cfg, st, a).value)
  {
    var st' := Step(cfg, st, a).value;
    hide LogInv, Quiet, WorkerStep, SweeperStep, TableStep, Add, Dispatch.MarkTx;
    assert SubsOk(cfg.maxAttempts, st.db);
    hide SafetyInv, SubsOk;
    match a {
      case Work(w, t) => WorkerLog(cfg, st, w, t);
      case Table(t) => TableLog(cfg, st, t);
      case Reap(r, t) => SweeperLog(cfg, st, r, t);
      case Mark(d) => MarkQuiet(st.db, st.dispatchers[d].sub, st.clock); QuietKeeps(cfg, st, st');
      case _ => QuietSame(st.db); QuietKeeps(cfg, st, st');
    }
  }

  // ------------------------------------------------------------------ run theorems

  lemma {:induction false} RunLog(cfg: Config, st: State, acts: seq<Action>)
    requires ValidConfig(cfg) && SafetyInv(cfg, st) && LogInv(cfg, st) && Run(cfg, st, acts).Some?
    ensures LogInv(cfg, Run(cfg, st, acts).value) && st.log <= Run(cfg, st, acts).value.log
    decreases |acts|
  {
    hide Step, SafetyInv, LogInv;
    if acts != [] {
      StepKeeps(cfg, st, acts[0]);
      StepLog(cfg, st, acts[0]);
      LogGrows(cfg, st, acts[0]);
      RunLog(cfg, Step(cfg, st, acts[0]).value, acts[1..]);
    }
  }

  lemma LogGrows(cfg: Config, st: State, a: Action)
    requires Step(cfg, st, a).Some?
    ensures st.log <= Step(cfg, st, a).value.log
  {
    hide WorkerStep, SweeperStep, TableStep, Add, Dispatch.MarkTx;
    match a {
      case Work(w, t) => WorkerLogGrows(cfg, st, w, t);
      case Table(t) => TableLogGrows(cfg, st, t);
      case Reap(r, t) => SweeperHistory(cfg, st, r, t);
      case _ =>
    }
  }

  lemma WorkerLogGrows(cfg: Config, st: State, w: nat, a: WorkerAction)
    requires WorkerStep(cfg, st, w, a).Some?
    ensures st.log <= WorkerStep(cfg, st, w, a).value.log
  {
  }

  lemma TableLogGrows(cfg: Config, st: State, a: TableAction)
    requires TableStep(cfg, st, a).Some?
    ensures st.log <= TableStep(cfg, st, a).value.log
  {
  }

  lemma {:induction false} LastIsLatest(log: seq<Life>, s: Uuid) returns (i: int)
    ensures Last(log, s).None? ==> i == -1 && forall k | 0 <= k < |log| :: log[k].sub != s
    ensures Last(log, s).Some? ==> 0 <= i < |log| && log[i] == Last(log, s).value && log[i].sub == s
                                   && forall k | i < k < |log| :: log[k].sub != s
    decreases |log|
  {
    if log == [] {
      i := -1;
    } else if log[|log| - 1].sub == s {
      i := |log| - 1;
    } else {
      i := LastIsLatest(log[..|log| - 1], s);
    }
  }

  lemma {:induction false} InitLogged(cfg: Config, st: State)
    requires Init(st)
    ensures LogInv(cfg, st)
  {
  }
}
