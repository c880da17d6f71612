// The run theorems: what holds after any finite run of the protocol, whatever
// crashes, retries and interleavings it contains.
module ProtocolTheorems {
  import opened Base
  import opened Rows
  import opened Submissions
  import opened JudgeStore
  import opened JudgeResult
  import opened Stream
  import opened Protocol
  import opened ProtocolSafety
  import opened ProtocolHistory
  import Dispatch
  import MatchEnd

  ghost predicate Reaches(cfg: Config, init: State, acts: seq<Action>, st: State) {
    ValidConfig(cfg) && Init(init) && Run(cfg, init, acts) == Some(st)
  }

  lemma ReachedSafe(cfg: Config, init: State, acts: seq<Action>, st: State)
    requires Reaches(cfg, init, acts, st)
    ensures ValidConfig(cfg) && SafetyInv(cfg, st) && LogInv(cfg, st)
  {
    InitSafe(cfg, init);
    InitLogged(cfg, init);
    hide SafetyInv, LogInv, Init;
    RunKeeps(cfg, init, acts);
    RunLog(cfg, init, acts);
  }

  /** What reached states satisfy, in parts. */
  lemma ReachedParts(cfg: Config, init: State, acts: seq<Action>, st: State)
    requires Reaches(cfg, init, acts, st)
    ensures ValidConfig(cfg) && DbInv(cfg.maxAttempts, st.db) && JobsInv(st) && PcsInv(st) && MarksInv(st)
    ensures ResultsInv(st) && AcceptedInv(st) && LogInv(cfg, st)
  {
    hide Reaches, SafetyInv, LogInv, DbInv, JobsInv, StreamOk, PcsInv, MarksInv, ResultsInv, AcceptedInv;
    ReachedSafe(cfg, init, acts, st);
    SafetyParts(cfg, st);
  }

  /** Whatever a later stretch of the run does, it only extends the earlier state. */
  lemma ReachedLater(cfg: Config, init: State, acts: seq<Action>, st: State, more: seq<Action>, later: State)
    requires Reaches(cfg, init, acts, st) && Run(cfg, st, more) == Some(later)
    ensures SafetyInv(cfg, later) && Later(st, later)
  {
    ReachedSafe(cfg, init, acts, st);
    hide SafetyInv, LogInv, Init;
    RunKeeps(cfg, st, more);
  }

  // --------------------------------------------------------------------- fencing

  /** A completion that took effect belongs to the latest claim of its submission,
      with no reclaim in between; its token was drawn by that claim alone; and the
      submission never moves again, so its result is written at most once. */
  lemma Fencing(cfg: Config, init: State, acts: seq<Action>, st: State, j: nat) returns (i: nat)
    requires Reaches(cfg, init, acts, st) && j < |st.log| && st.log[j].Ended?
    ensures i < j && st.log[i] == Started(st.log[j].sub, st.log[j].token)
    ensures forall k | i < k < j :: st.log[k].sub != st.log[j].sub
    ensures forall k | j < k < |st.log| :: st.log[k].sub != st.log[j].sub
    ensures forall k | 0 <= k < |st.log| && st.log[k].Started? && st.log[k].token == st.log[j].token :: k == i
  {
    hide Reaches, LogInv, DbInv, JobsInv, PcsInv, MarksInv, ResultsInv, AcceptedInv;
    ReachedParts(cfg, init, acts, st);
    var e := st.log[j];
    EndedIsPermitted(cfg, st, j);
    var latest := LastIsLatest(st.log[..j], e.sub);
    i := latest;
    forall k | j < k < |st.log| ensures st.log[k].sub != e.sub { NothingAfterEnd(st.log, j, k); }
    StartedOnce(cfg, st, i);
  }

  lemma EndedIsPermitted(cfg: Config, st: State, j: nat)
    requires LogInv(cfg, st) && j < |st.log|
    ensures LogOk(st.log) && Permitted(Last(st.log[..j], st.log[j].sub), st.log[j])
  {
    hide FreshTokens, RowLogged, Permitted, Last;
  }

  lemma StartedOnce(cfg: Config, st: State, i: nat)
    requires LogInv(cfg, st) && i < |st.log| && st.log[i].Started?
    ensures forall k | 0 <= k < |st.log| && st.log[k].Started? && st.log[k].token == st.log[i].token :: k == i
  {
    hide LogOk, RowLogged;
  }

  /** In a lawful log nothing follows a terminal transition. */
  lemma NothingAfterEnd(log: seq<Life>, j: nat, k: nat)
    requires LogOk(log) && j < k < |log| && (log[j].Ended? || log[j].Poisoned?)
    ensures log[k].sub != log[j].sub
    decreases k
  {
    if log[k].sub == log[j].sub {
      var m := LastIsLatest(log[..k], log[k].sub);
      assert log[..k][j] == log[j];
      assert Permitted(Last(log[..k], log[k].sub), log[k]);
      assert m > j;
      NothingAfterEnd(log, j, m);
    }
  }

  /** A worker's completion takes effect exactly when its claim is still the latest
      transition of the submission; a stale one changes no row at all. */
  lemma StaleCompletions(cfg: Config, init: State, acts: seq<Action>, st: State, w: nat, result: Terminal)
    requires Reaches(cfg, init, acts, st) && FinishStep(st, w, result).Some?
    ensures var c := st.workers[w].claimed;
            var st' := FinishStep(st, w, result).value;
      if Last(st.log, c.sub) == Some(Started(c.sub, c.token))
      then c.sub in st'.db.subs && st'.db.subs[c.sub].status == Completed && c.sub in st'.returned
      else st'.db == st.db && st'.returned == st.returned && st'.workers[w] == Idle
  {
    hide Reaches, DbInv, JobsInv, PcsInv, MarksInv, ResultsInv, AcceptedInv, CompleteTx, Announceable;
    hide LogOk, FreshTokens, LogInv;
    ReachedParts(cfg, init, acts, st);
    var c := st.workers[w].claimed;
    WorkerPcFits(st, w);
    RowIsLogged(cfg, st, c.sub);
    CompleteMeaning(cfg.maxAttempts, st.db, c, result, st.clock);
  }

  /** No submission is executed more than `maxAttempts` times, or makes more than
      twice as many lifecycle transitions, in any run. */
  lemma AttemptsBounded(cfg: Config, init: State, acts: seq<Action>, st: State, s: Uuid)
    requires Reaches(cfg, init, acts, st)
    ensures Starts(st.log, s) <= cfg.maxAttempts
    ensures Moves(st.log, s) <= 2 * cfg.maxAttempts
    ensures s in st.db.subs ==>
      (&& st.db.subs[s].attempts == Starts(st.log, s)
       && (st.db.subs[s].status == Pending ==> st.db.subs[s].attempts < cfg.maxAttempts)
       && (st.db.subs[s].status == Running ==> 1 <= st.db.subs[s].attempts <= cfg.maxAttempts))
  {
    hide Reaches, DbInv, JobsInv, PcsInv, MarksInv, ResultsInv, AcceptedInv, LogInv;
    ReachedParts(cfg, init, acts, st);
    RowIsLogged(cfg, st, s);
    if s in st.db.subs { RowIsOk(cfg.maxAttempts, st.db, s); }
  }

  lemma RowIsOk(max: nat, db: Db, s: Uuid)
    requires DbInv(max, db) && s in db.subs
    ensures SubOk(db, max, db.subs[s])
  {
    hide SubOk, MatchOk, Standing, ClaimsExact, UniqueRequests;
  }

  lemma RowIsLogged(cfg: Config, st: State, s: Uuid)
    requires LogInv(cfg, st)
    ensures RowLogged(cfg, st, s)
  {
    hide LogOk, FreshTokens, RowLogged;
  }

  // ---------------------------------------------------------------- match outcome

  /** An active match has neither winner nor passing submission; a finished one has
      a winner who plays and is not behind, or two equal best scores. */
  lemma OutcomeSound(cfg: Config, init: State, acts: seq<Action>, st: State, m: Uuid)
    requires Reaches(cfg, init, acts, st) && m in st.db.matches
    ensures var game := st.db.matches[m];
      && |game.players| == 2 && game.players[0] != game.players[1]
      && (game.status == Active ==> game.winner.None?)
      && (game.status == Active ==>
            forall s | s in st.db.subs && st.db.subs[s].matchId == m :: st.db.subs[s].verdict != Some(VPass))
      && (game.winner.Some? ==> game.status == Finished && game.winner.value in game.players)
      && (game.winner.Some? ==>
            forall p | p in game.players :: Best(st.db, m, p) <= Best(st.db, m, game.winner.value))
      && (game.status == Finished && game.winner.None? ==>
            Best(st.db, m, game.players[0]) == Best(st.db, m, game.players[1]))
  {
    ReachedSafe(cfg, init, acts, st);
    assert Standing(st.db, m) && MatchOk(st.db, st.db.matches[m]);
    hide SafetyInv, LogInv, Reaches, MaxOf, Scores;
  }

  /** Finished is absorbing and its winner is fixed; a draw stays a draw in score,
      because a match settled without winner never sees another result. */
  lemma OutcomeFixed(cfg: Config, init: State, acts: seq<Action>, st: State,
                     more: seq<Action>, later: State, m: Uuid)
    requires Reaches(cfg, init, acts, st) && Run(cfg, st, more) == Some(later)
    requires m in st.db.matches && st.db.matches[m].status == Finished
    ensures m in later.db.matches && later.db.matches[m] == st.db.matches[m]
    ensures forall p | p in later.db.matches[m].players && later.db.matches[m].winner.Some? ::
              Best(later.db, m, p) <= Best(later.db, m, later.db.matches[m].winner.value)
    ensures forall p, q | p in later.db.matches[m].players && q in later.db.matches[m].players
                          && later.db.matches[m].winner.None? :: Best(later.db, m, p) == Best(later.db, m, q)
  {
    ReachedLater(cfg, init, acts, st, more, later);
    assert Standing(later.db, m);
  }

  /** When the reaper settles a match, every submission it ever got is completed
      and none can follow, so the scores it compared are final. */
  lemma SettlementFinal(cfg: Config, init: State, acts: seq<Action>, st: State,
                        m: Uuid, more: seq<Action>, later: State)
    requires Reaches(cfg, init, acts, st) && m in st.db.matches
    requires SettleStep(st, m).Some? && SettleStep(st, m).value.db != st.db
    requires Run(cfg, SettleStep(st, m).value, more) == Some(later)
    ensures SettledFor(st.db, later.db, m)
  {
    hide Reaches, SafetyInv, LogInv, DbInv, JobsInv, StreamOk, PcsInv, MarksInv, ResultsInv, AcceptedInv, SettledFor;
    hide MatchEnd.FinalizeTx, MatchEnd.DueKeys, Run, Later;
    ReachedSafe(cfg, init, acts, st);
    SafetyParts(cfg, st);
    var settled := SettleStep(st, m).value;
    assert Step(cfg, st, Table(Settle(m))) == Some(settled);
    SettledIsActive(st, m);
    hide Step;
    StepKeeps(cfg, st, Table(Settle(m)));
    RunKeeps(cfg, settled, more);
    LaterEvolves(settled, later);
    SettledStays(cfg.maxAttempts, st.db, settled.db, later.db, m);
  }

  lemma SettledIsActive(st: State, m: Uuid)
    requires SettleStep(st, m).Some?
    ensures m in st.db.matches && st.db.matches[m].status == Active
    ensures SettleStep(st, m).value.db == MatchEnd.FinalizeTx(st.db, m).0
  {
    hide MatchEnd.FinalizeTx;
  }

  lemma LaterEvolves(a: State, b: State)
    requires Later(a, b)
    ensures Evolves(a.db, b.db)
  {
    hide Evolves;
  }

  /** From the settlement on, the submissions of `m` and the scores they give are
      what the reaper saw, and the recorded winner is the one who is ahead. */
  ghost predicate SettledFor(db: Db, later: Db, m: Uuid) {
    && m in later.matches && later.matches[m].status == Finished
    && SubsOf(later, m) == SubsOf(db, m)
    && (forall s | s in SubsOf(db, m) :: db.subs[s].status == Completed && later.subs[s] == db.subs[s])
    && (forall p :: Best(later, m, p) == Best(db, m, p))
    && MatchEnd.DecidedByScore(later, m)
  }

  lemma SettledStays(max: nat, db: Db, settled: Db, later: Db, m: Uuid)
    requires DbInv(max, db) && m in db.matches && db.matches[m].status == Active
    requires settled == MatchEnd.FinalizeTx(db, m).0 && settled != db && Evolves(settled, later)
    ensures SettledFor(db, later, m)
  {
    hide DbInv, Best, Evolves, MatchEnd.FinalizeTx;
    MatchEnd.FinalizeMeaning(max, db, m);
    SameSubs(db, settled, m);
    assert settled.matches[m].status == Finished && AllCompleted(settled, m) && SubsOf(settled, m) == SubsOf(db, m);
    assert SameCompleted(db, settled, m);
    hide RowUpdates.FinishMatch;
    FrozenMatch(settled, later, m);
    EvolvedResult(settled, later, m);
    hide AllCompleted, SameCompleted;
    forall p ensures Best(later, m, p) == Best(db, m, p) && Best(later, m, p) == Best(settled, m, p) {
      BestFrame(settled, later, m, p);
      BestFrame(db, settled, m, p);
    }
  }

  lemma EvolvedResult(db: Db, db': Db, m: Uuid)
    requires Evolves(db, db') && m in db.matches && db.matches[m].status == Finished
    ensures m in db'.matches && db'.matches[m] == db.matches[m]
  {
  }

  lemma SameSubs(db: Db, db': Db, m: Uuid)
    requires db' == MatchEnd.FinalizeTx(db, m).0
    ensures db'.subs == db.subs
  {
  }

  /** A finished match with nothing open never changes again. */
  lemma FrozenMatch(db: Db, db': Db, m: Uuid)
    requires Evolves(db, db') && m in db.matches && db.matches[m].status == Finished && AllCompleted(db, m)
    ensures SubsOf(db', m) == SubsOf(db, m) && SameCompleted(db, db', m)
    ensures forall s | s in SubsOf(db, m) :: db'.subs[s] == db.subs[s]
  {
  }

  // --------------------------------------------------------------- reconstruction

  lemma ReturnedFits(st: State, s: Uuid)
    requires ResultsInv(st) && s in st.returned
    ensures st.returned[s].sub == s && RecordFits(st.db, st.returned[s])
  {
    hide RecordFits;
  }

  lemma RecordRebuilt(max: nat, db: Db, first: Record, token: Uuid, lease: nat, now: nat)
    requires DbInv(max, db) && RecordFits(db, first) && token != NIL && lease > 0
    ensures var (db', res) := ClaimTx(db, first.sub, token, lease, now);
      && db' == db && res.AlreadyCompleted?
      && res.record == first.(winner := res.record.winner)
      && (first.winner.Some? ==> res.record == first)
      && (first.verdict == VPass ==> first.winner.Some?)
  {
    assert SubOk(db, max, db.subs[first.sub]) && MatchOk(db, db.matches[db.subs[first.sub].matchId]);
    hide DbInv, SubOk;
  }

  /** A later claim of a completed submission rebuilds the record `Complete` had
      returned; only a missing winner may have been filled in, and a pass, which
      always leaves the match with a winner, is rebuilt identically. */
  lemma Reconstruction(cfg: Config, init: State, acts: seq<Action>, st: State, s: Uuid, token: Uuid)
    requires Reaches(cfg, init, acts, st) && s in st.returned && token != NIL
    ensures var (db', res) := ClaimTx(st.db, s, token, cfg.attemptLease, st.clock);
            var first := st.returned[s];
      && db' == st.db && res.AlreadyCompleted?
      && res.record == first.(winner := res.record.winner)
      && (first.winner.Some? ==> res.record == first)
      && (first.verdict == VPass ==> first.winner.Some?)
  {
    hide Reaches, LogInv, DbInv, JobsInv, PcsInv, MarksInv, ResultsInv, AcceptedInv;
    ReachedParts(cfg, init, acts, st);
    ReturnedFits(st, s);
    hide RecordFits;
    RecordRebuilt(cfg.maxAttempts, st.db, st.returned[s], token, cfg.attemptLease, st.clock);
  }

  /** Every event that ever reached a channel goes to a player of the match and
      tells the stored outcome; two events for the same player and submission
      differ at most in announcing the winner. */
  lemma EventsTruthful(cfg: Config, init: State, acts: seq<Action>, st: State, e: Event, f: Event)
    requires Reaches(cfg, init, acts, st) && e in st.events && f in st.events
    ensures e.record.matchId in st.db.matches && e.recipient in st.db.matches[e.record.matchId].players
    ensures e.record.sub in st.db.subs && st.db.subs[e.record.sub].verdict == Some(e.record.verdict)
    ensures e.outcome == Won <==> st.db.matches[e.record.matchId].winner == Some(e.recipient) && e.kind == WinnerResult
    ensures EventId(e) == EventId(f) ==> e == f
    ensures e.record.sub == f.record.sub ==> e.record == f.record.(winner := e.record.winner)
  {
    hide Reaches, LogInv, DbInv, JobsInv, PcsInv, MarksInv, ResultsInv, AcceptedInv;
    ReachedParts(cfg, init, acts, st);
    EventFits(st, e);
    EventFits(st, f);
  }

  lemma EventFits(st: State, e: Event)
    requires ResultsInv(st) && e in st.events
    ensures RecordFits(st.db, e.record) && e.recipient in e.record.players && e == EventFor(e.record, e.recipient)
  {
    hide RecordFits, EventFor;
  }

  // ------------------------------------------------------------------- admission

  /** Successful calls with one key name one submission and had one payload; the
      key has one row; and repeating or altering the request later, even after the
      match ended, returns that submission or a conflict and writes nothing. */
  lemma IdempotentAdmission(cfg: Config, init: State, acts: seq<Action>, st: State, i: nat, again: Request,
                            now: nat, newId: Uuid)
    requires Reaches(cfg, init, acts, st) && i < |st.accepted| && newId !in st.db.subs
    requires ValidRequest(again) && again.player == st.accepted[i].0.player && again.id == st.accepted[i].0.id
    ensures forall j | 0 <= j < |st.accepted| && st.accepted[j].0.player == again.player
                       && st.accepted[j].0.id == again.id :: st.accepted[j] == st.accepted[i]
    ensures forall s | s in st.db.subs && st.db.subs[s].player == again.player && st.db.subs[s].request == again.id ::
              s == st.accepted[i].1
    ensures AcceptTx(st.db, again, now, newId)
      == (st.db, if again == st.accepted[i].0 then Accepted(st.accepted[i].1) else Refused(IdempotencyConflict))
  {
    ReachedSafe(cfg, init, acts, st);
    var (r, id) := st.accepted[i];
    assert id in st.db.subs && HasKey(st.db.subs[id], r) && SamePayload(st.db.subs[id], r);
    AcceptMeaning(st.db, again, now, newId);
    assert HasKey(st.db.subs[id], again);
    assert KeyUsed(st.db, again);
  }

  /** Once a match is finished, every first request for it is refused, by the same
      rule for ever, and writes nothing. */
  lemma ClosedForGood(cfg: Config, init: State, acts: seq<Action>, st: State, more: seq<Action>, later: State,
                      r: Request, now: nat, newId: Uuid)
    requires Reaches(cfg, init, acts, st) && Run(cfg, st, more) == Some(later)
    requires r.matchId in st.db.matches && st.db.matches[r.matchId].status == Finished
    requires ValidRequest(r) && !KeyUsed(later.db, r)
    ensures AcceptTx(later.db, r, now, newId)
            == (later.db,
                Refused(if r.player in st.db.matches[r.matchId].players then MatchNotActive else NotMatchPlayer))
  {
    hide Reaches, Run, Later, Gate, KeyUsed;
    ReachedLater(cfg, init, acts, st, more, later);
    LaterEvolves(st, later);
    EvolvedResult(st.db, later.db, r.matchId);
    AnswersExactly(later.db, r, now, newId);
    hide SafetyInv, Evolves;
  }

  // ---------------------------------------------------------------------- claims

  predicate Playing(db: Db, u: Uuid, m: Uuid) {
    m in db.matches && db.matches[m].status == Active && u in db.matches[m].players
  }

  /** The active-claims table is exactly the membership of active matches, so no
      player is in two of them. */
  lemma OneActiveMatch(cfg: Config, init: State, acts: seq<Action>, st: State, u: Uuid, m: Uuid, n: Uuid)
    requires Reaches(cfg, init, acts, st) && m in st.db.matches && n in st.db.matches
    ensures Playing(st.db, u, m) <==> u in st.db.claims && st.db.claims[u] == m
    ensures Playing(st.db, u, m) && Playing(st.db, u, n) ==> m == n
  {
    ReachedSafe(cfg, init, acts, st);
    assert ClaimsExact(st.db);
  }

  // ---------------------------------------------------------------------- stream

  /** Every entry ever added is in exactly one place: undelivered, pending at one
      consumer, or gone, for which see `EntriesLeaveByFinalise`; and a row marked as enqueued had a job added. */
  lemma StreamConserved(cfg: Config, init: State, acts: seq<Action>, st: State, e: nat)
    requires Reaches(cfg, init, acts, st)
    ensures e in st.jobs <==> 0 < e < st.stream.next
    ensures e in st.stream.entries <==> e in st.stream.undelivered || e in st.stream.pel
    ensures !(e in st.stream.undelivered && e in st.stream.pel)
    ensures e in st.stream.entries ==> e in st.jobs && st.stream.entries[e] == st.jobs[e]
    ensures forall s | s in st.db.subs && st.db.subs[s].enqueued.Some? ::
              exists a :: a in st.jobs && st.jobs[a] == JobFor(s)
  {
    ReachedSafe(cfg, init, acts, st);
    assert JobsInv(st) && MarksInv(st);
    hide SafetyInv, LogInv, Reaches;
    forall s | s in st.db.subs && st.db.subs[s].enqueued.Some?
      ensures exists a :: a in st.jobs && st.jobs[a] == JobFor(s)
    {
      assert HasJob(st, s);
    }
  }

  /** A judge acknowledges, or a reaper removes, this pending entry. */
  predicate Finalises(st: State, a: Action, e: nat) {
    && e in st.stream.pel && e in st.stream.entries
    && (|| (a.Work? && a.does.Ack? && WorkerAt(st, a.w) == Discarding(e))
        || (a.Reap? && a.step.Remove? && ReaperAt(st, a.r) == Removing(e)))
  }

  /** One step takes an entry away exactly by finalising it, brings none back, and
      adds only new ones. */
  ghost predicate EntryMoves(st: State, a: Action, st': State, e: nat) {
    && (e in st.stream.entries ==> (e !in st'.stream.entries <==> Finalises(st, a, e)))
    && (e in st.jobs && e !in st.stream.entries ==> e !in st'.stream.entries)
    && (e in st.jobs ==> e in st'.jobs)
    && (e !in st.jobs && e in st'.jobs ==> e in st'.stream.entries)
  }

  lemma WorkerEntryMoves(cfg: Config, st: State, w: nat, a: WorkerAction, e: nat)
    requires JobsInv(st) && WorkerStep(cfg, st, w, a).Some?
    ensures EntryMoves(st, Work(w, a), WorkerStep(cfg, st, w, a).value, e)
  {
    hide ClaimTx, CompleteTx, Announcing, EventFor;
  }

  lemma SweeperEntryMoves(cfg: Config, st: State, r: nat, a: SweepAction, e: nat)
    requires JobsInv(st) && SweeperStep(cfg, st, r, a).Some?
    ensures EntryMoves(st, Reap(r, a), SweeperStep(cfg, st, r, a).value, e)
  {
    hide Dispatch.MarkTx;
  }

  lemma StepEntryMoves(cfg: Config, st: State, a: Action, e: nat)
    requires JobsInv(st) && Step(cfg, st, a).Some?
    ensures EntryMoves(st, a, Step(cfg, st, a).value, e)
  {
    match a {
      case Work(w, t) =>
        WorkerEntryMoves(cfg, st, w, t, e);
        hide EntryMoves, WorkerStep, JobsInv;
      case Reap(r, t) =>
        SweeperEntryMoves(cfg, st, r, t, e);
        hide EntryMoves, SweeperStep, JobsInv;
      case Table(t) =>
        TableHistory(cfg, st, t);
        hide TableStep;
      case _ =>
        hide Dispatch.MarkTx;
    }
  }

  lemma {:induction false} StaysGone(cfg: Config, st: State, acts: seq<Action>, e: nat, n: nat)
    requires ValidConfig(cfg) && SafetyInv(cfg, st) && Run(cfg, st, acts).Some? && n <= |acts|
    requires e in st.jobs && e !in st.stream.entries
    ensures Run(cfg, st, acts[..n]).Some? && e !in Run(cfg, st, acts[..n]).value.stream.entries
    decreases n
  {
    hide SafetyInv, JobsInv, DbInv, StreamOk, PcsInv, MarksInv, ResultsInv, AcceptedInv, Step, Finalises;
    if n > 0 {
      SafetyParts(cfg, st);
      StepKeeps(cfg, st, acts[0]);
      StepEntryMoves(cfg, st, acts[0], e);
      StaysGone(cfg, Step(cfg, st, acts[0]).value, acts[1..], e, n - 1);
      assert acts[..n][1..] == acts[1..][..n - 1];
    }
  }

  /** The run finalises the entry with action `k`, and it is gone ever after. */
  ghost predicate FinalisedAt(cfg: Config, st: State, acts: seq<Action>, e: nat, k: nat) {
    && k < |acts| && Run(cfg, st, acts[..k]).Some? && Finalises(Run(cfg, st, acts[..k]).value, acts[k], e)
    && forall n | k < n <= |acts| :: Run(cfg, st, acts[..n]).Some? && e !in Run(cfg, st, acts[..n]).value.stream.entries
  }

  lemma FinalisedLater(cfg: Config, st: State, acts: seq<Action>, e: nat, k: nat)
    requires acts != [] && Step(cfg, st, acts[0]).Some?
    requires FinalisedAt(cfg, Step(cfg, st, acts[0]).value, acts[1..], e, k)
    ensures FinalisedAt(cfg, st, acts, e, k + 1)
  {
    hide Step, Finalises;
    assert acts[..k + 1][1..] == acts[1..][..k];
    forall n | k + 1 < n <= |acts|
      ensures Run(cfg, st, acts[..n]).Some? && e !in Run(cfg, st, acts[..n]).value.stream.entries
    {
      assert acts[..n][1..] == acts[1..][..n - 1];
      assert n - 1 <= |acts[1..]|;
      assert Run(cfg, Step(cfg, st, acts[0]).value, acts[1..][..n - 1]).Some?;
    }
  }

  lemma FinalisedFirst(cfg: Config, st: State, acts: seq<Action>, e: nat)
    requires ValidConfig(cfg) && Run(cfg, st, acts).Some? && acts != [] && Finalises(st, acts[0], e)
    requires var next := Step(cfg, st, acts[0]).value;
      SafetyInv(cfg, next) && e in next.jobs && e !in next.stream.entries
    ensures FinalisedAt(cfg, st, acts, e, 0)
  {
    hide SafetyInv, Step, Finalises;
    var next := Step(cfg, st, acts[0]).value;
    assert acts[..0] == [];
    forall n | 0 < n <= |acts|
      ensures Run(cfg, st, acts[..n]).Some? && e !in Run(cfg, st, acts[..n]).value.stream.entries
    {
      StaysGone(cfg, next, acts[1..], e, n - 1);
      assert acts[..n][1..] == acts[1..][..n - 1];
    }
  }

  lemma {:induction false} Finalised(cfg: Config, st: State, acts: seq<Action>, e: nat) returns (k: nat)
    requires ValidConfig(cfg) && SafetyInv(cfg, st) && Run(cfg, st, acts).Some?
    requires e in st.stream.entries || e !in st.jobs
    requires e in Run(cfg, st, acts).value.jobs && e !in Run(cfg, st, acts).value.stream.entries
    ensures FinalisedAt(cfg, st, acts, e, k)
    decreases |acts|
  {
    hide SafetyInv, JobsInv, DbInv, StreamOk, PcsInv, MarksInv, ResultsInv, AcceptedInv, Step, FinalisedAt, Finalises;
    SafetyParts(cfg, st);
    var next := Step(cfg, st, acts[0]).value;
    StepKeeps(cfg, st, acts[0]);
    StepEntryMoves(cfg, st, acts[0], e);
    if e in next.stream.entries || e !in next.jobs {
      var later := Finalised(cfg, next, acts[1..], e);
      FinalisedLater(cfg, st, acts, e, later);
      k := later + 1;
    } else {
      k := 0;
      FinalisedFirst(cfg, st, acts, e);
    }
  }

  /** An entry that is no longer there was finalised by one acknowledgement or
      removal while it was pending, and never came back. */
  lemma EntriesLeaveByFinalise(cfg: Config, init: State, acts: seq<Action>, st: State, e: nat)
    requires Reaches(cfg, init, acts, st) && e in st.jobs
    ensures e !in st.stream.entries <==> exists k :: FinalisedAt(cfg, init, acts, e, k)
  {
    InitSafe(cfg, init);
    assert e !in init.jobs;
    hide SafetyInv, Init;
    if e !in st.stream.entries {
      var k := Finalised(cfg, init, acts, e);
    }
    assert acts[..|acts|] == acts;
    forall k | FinalisedAt(cfg, init, acts, e, k) ensures e !in st.stream.entries {
      assert Run(cfg, init, acts[..|acts|]).Some?;
    }
  }
}
