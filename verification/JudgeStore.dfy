// internal/judge/store.go: claiming a submission under a fresh leased token and
// completing it under the lock of its match.
module JudgeStore {
  import opened Base
  import opened Rows
  import opened RowUpdates

  datatype Claimed = Claimed(
    sub: Uuid, matchId: Uuid, player: Uuid, problem: Uuid, request: Uuid,
    language: string, source: string, tests: nat, players: seq<Uuid>, token: Uuid)

  /** completedSubmission: what is published about a finished submission. */
  datatype Record = Record(
    sub: Uuid, matchId: Uuid, player: Uuid, request: Uuid, players: seq<Uuid>,
    verdict: Verdict, failure: Option<FailureKind>, passed: nat, total: nat, winner: Option<Uuid>)

  datatype ClaimResult =
    | Acquired(claimed: Claimed)
    | AlreadyCompleted(record: Record)
    | LiveAttempt(leaseUntil: nat)
    | ExpiredAttempt
    | MissingSubmission
    | ClaimError

  datatype Terminal = Terminal(verdict: Verdict, failure: Option<FailureKind>, passed: int)

  datatype CompleteResult = Applied(record: Record) | LostOwnership | CompleteError

  /** validateTerminalResult. */
  predicate ValidTerminal(r: Terminal, total: nat) {
    && 0 <= r.passed <= total
    && match r.verdict
       case VPass => r.failure.None? && r.passed == total
       case VFail => r.failure == Some(WrongAnswer)
       case VError => r.failure == Some(CompileError) || r.failure == Some(RuntimeError)
           || r.failure == Some(OutputLimit)
       case VTimeout => r.failure.None?
       case VFailed => false
  }

  /** validClaimedSubmission. */
  predicate ValidClaimed(c: Claimed) {
    c.sub != NIL && c.matchId != NIL && c.player != NIL && c.request != NIL && c.token != NIL && c.tests > 0
  }

  /** decodeStoredTests: the number of tests, or an error. */
  function DecodeTests(p: Problem): Option<nat> {
    if p.wellFormed && p.tests > 0 then Some(p.tests) else None
  }

  /** loadMatchPlayers: exactly two distinct players, the submitter among them. */
  function LoadPlayers(rows: seq<Uuid>, submitter: Uuid): Option<seq<Uuid>> {
    if |rows| == 2 && submitter in rows && rows[0] != rows[1] then Some(rows) else None
  }

  /** The record a completed row stands for at this moment. */
  function RecordOf(db: Db, s: Uuid, total: nat): Record
    requires s in db.subs && db.subs[s].matchId in db.matches && db.subs[s].verdict.Some?
  {
    var row := db.subs[s];
    var game := db.matches[row.matchId];
    Record(s, row.matchId, row.player, row.request, game.players,
           row.verdict.value, row.failure, row.passed, total, game.winner)
  }

  function Started(row: Submission, token: Uuid, lease: nat, now: nat): Submission {
    row.(status := Running, attempts := row.attempts + 1, token := Some(token), lease := Some(now + lease))
  }

  function ClaimTx(db: Db, s: Uuid, token: Uuid, lease: nat, now: nat): (Db, ClaimResult) {
    if s == NIL || token == NIL || lease == 0 then (db, ClaimError)
    else if s !in db.subs || db.subs[s].matchId !in db.matches
            || db.matches[db.subs[s].matchId].problem !in db.problems then (db, MissingSubmission)
    else
      var row := db.subs[s];
      var game := db.matches[row.matchId];
      var tests := DecodeTests(db.problems[game.problem]);
      var players := LoadPlayers(game.players, row.player);
      match row.status
      case Running =>
        if row.lease.Some? && row.lease.value > now && row.token.Some? then (db, LiveAttempt(row.lease.value))
        else (db, ExpiredAttempt)
      case Completed =>
        if row.verdict.None? || tests.None? || players.None? then (db, ClaimError)
        else (db, AlreadyCompleted(RecordOf(db, s, tests.value)))
      case Pending =>
        if tests.None? || !KnownLanguage(row.language) || row.code == "" || players.None? then (db, ClaimError)
        else (WithSub(db, s, Started(row, token, lease, now)),
              Acquired(Claimed(s, row.matchId, row.player, game.problem, row.request, row.language, row.code,
                               tests.value, players.value, token)))
  }

  function Judged(row: Submission, r: Terminal, now: nat): Submission
    requires r.passed >= 0
  {
    row.(status := Completed, verdict := Some(r.verdict), failure := r.failure, passed := r.passed,
         finishedAt := Some(now), token := None, lease := None)
  }

  predicate Owns(row: Submission, c: Claimed) {
    row.status == Running && row.matchId == c.matchId && row.player == c.player && row.token == Some(c.token)
  }

  function CompleteTx(db: Db, c: Claimed, r: Terminal, now: nat): (Db, CompleteResult) {
    if !ValidClaimed(c) || !ValidTerminal(r, c.tests) then (db, CompleteError)
    else if c.matchId !in db.matches || c.sub !in db.subs then (db, CompleteError)
    else if !Owns(db.subs[c.sub], c) then (db, LostOwnership)
    else
      var done := WithSub(db, c.sub, Judged(db.subs[c.sub], r, now));
      var game := db.matches[c.matchId];
      var wins := r.verdict == VPass && game.status == Active && game.winner.None?;
      var db' := if wins then FinishMatch(done, c.matchId, Some(c.player)) else done;
      var winner := if wins then Some(c.player) else game.winner;
      (db', Applied(Record(c.sub, c.matchId, c.player, c.request, c.players,
                           r.verdict, r.failure, r.passed, c.tests, winner)))
  }

  /** What a worker holding `c` may rely on, however late it is. */
  ghost predicate ClaimFits(db: Db, c: Claimed) {
    && ValidClaimed(c)
    && c.sub in db.subs
    && c.matchId == db.subs[c.sub].matchId && c.player == db.subs[c.sub].player && c.request == db.subs[c.sub].request
    && c.matchId in db.matches && c.players == db.matches[c.matchId].players
    && db.matches[c.matchId].problem in db.problems
    && DecodeTests(db.problems[db.matches[c.matchId].problem]) == Some(c.tests)
  }

  lemma StartedOk(max: nat, db: Db, s: Uuid, token: Uuid, lease: nat, now: nat)
    requires DbInv(max, db) && s in db.subs && db.subs[s].status == Pending
    ensures var db' := WithSub(db, s, Started(db.subs[s], token, lease, now)); DbInv(max, db') && Evolves(db, db')
  {
    assert SubOk(db, max, db.subs[s]);
    UpdateOpenSub(max, db, s, Started(db.subs[s], token, lease, now));
  }

  lemma ClaimKeeps(max: nat, db: Db, s: Uuid, token: Uuid, lease: nat, now: nat)
    requires DbInv(max, db)
    ensures var db' := ClaimTx(db, s, token, lease, now).0; DbInv(max, db') && Evolves(db, db')
  {
    hide DbInv, Evolves;
    var (db', res) := ClaimTx(db, s, token, lease, now);
    if res.Acquired? {
      StartedOk(max, db, s, token, lease, now);
    } else {
      assert db' == db;
      EvolvesReflexive(db);
    }
  }

  /** What a claim hands out fits the tables; every other disposition writes nothing. */
  lemma ClaimMeaning(max: nat, db: Db, s: Uuid, token: Uuid, lease: nat, now: nat)
    requires NilUnused(db) && MatchesOk(db) && SubsOk(max, db)
    ensures var (db', res) := ClaimTx(db, s, token, lease, now);
      && (!res.Acquired? ==> db' == db)
      && (res.Acquired? ==>
            (&& db' == WithSub(db, s, Started(db.subs[s], token, lease, now))
             && res.claimed.sub == s && res.claimed.token == token
             && ClaimFits(db', res.claimed) && Owns(db'.subs[s], res.claimed)
             && res.claimed.language == db.subs[s].language && res.claimed.source == db.subs[s].code
             && res.claimed.problem == db.matches[db.subs[s].matchId].problem
             && db'.subs[s] == db.subs[s].(status := Running, attempts := db.subs[s].attempts + 1,
                                           token := Some(token), lease := Some(now + lease))))
      && (res.AlreadyCompleted? ==>
            (&& s in db.subs && db.subs[s].status == Completed && db.subs[s].verdict.Some?
             && res.record == RecordOf(db, s, res.record.total) && TellsRow(db, s, res.record)
             && DecodeTests(db.problems[db.matches[db.subs[s].matchId].problem]) == Some(res.record.total)))
      && (res.LiveAttempt? || res.ExpiredAttempt? ==> s in db.subs && db.subs[s].status == Running)
      && (res.MissingSubmission? ==> s !in db.subs)
  {
    if s in db.subs {
      assert SubOk(db, max, db.subs[s]) && MatchOk(db, db.matches[db.subs[s].matchId]);
    }
  }

  /** The record says what the completed row and its match say. */
  ghost predicate TellsRow(db: Db, s: Uuid, r: Record) {
    && s in db.subs && db.subs[s].matchId in db.matches && db.matches[db.subs[s].matchId].problem in db.problems
    && r.sub == s && r.matchId == db.subs[s].matchId && r.player == db.subs[s].player
    && r.request == db.subs[s].request && r.players == db.matches[db.subs[s].matchId].players
    && Some(r.verdict) == db.subs[s].verdict && r.failure == db.subs[s].failure && r.passed == db.subs[s].passed
    && r.total == db.problems[db.matches[db.subs[s].matchId].problem].tests
    && r.winner == db.matches[db.subs[s].matchId].winner
  }

  /** A claim succeeds exactly on a pending submission of a decodable problem; a stored
      result is handed out exactly for a completed one; tests that do not decode, or a
      nil argument, are errors. */
  lemma ClaimSucceedsIff(max: nat, db: Db, s: Uuid, token: Uuid, lease: nat, now: nat)
    requires DbInv(max, db) && token != NIL && lease > 0
    ensures var res := ClaimTx(db, s, token, lease, now).1;
      var found := s in db.subs;
      var decodes := found && var problem := db.problems[db.matches[db.subs[s].matchId].problem];
                              problem.wellFormed && problem.tests > 0;
      && (res.Acquired? <==> found && db.subs[s].status == Pending && decodes)
      && (res.AlreadyCompleted? <==> found && db.subs[s].status == Completed && decodes)
      && (res.ClaimError? <==> s == NIL || (found && db.subs[s].status != Running && !decodes))
      && (res.MissingSubmission? <==> s != NIL && !found)
  {
    if s in db.subs {
      assert SubOk(db, max, db.subs[s]) && MatchOk(db, db.matches[db.subs[s].matchId]);
    }
  }

  /** The submission with its match and its problem, as the claim joins them. */
  predicate Joined(db: Db, s: Uuid) {
    && s in db.subs && db.subs[s].matchId in db.matches
    && db.matches[db.subs[s].matchId].problem in db.problems
  }

  /** The stored tests decode, and two different players have their slots, the submitter
      among them. */
  predicate Playable(db: Db, s: Uuid)
    requires Joined(db, s)
  {
    var game := db.matches[db.subs[s].matchId];
    var problem := db.problems[game.problem];
    && problem.wellFormed && problem.tests > 0
    && |game.players| == 2 && game.players[0] != game.players[1] && db.subs[s].player in game.players
  }

  /** Every disposition of a claim exactly in its own case, on any tables. */
  lemma ClaimExactly(db: Db, s: Uuid, token: Uuid, lease: nat, now: nat)
    ensures var (db', res) := ClaimTx(db, s, token, lease, now);
      var asked := s != NIL && token != NIL && lease > 0;
      var found := asked && Joined(db, s);
      && (!asked ==> res.ClaimError?) && (!res.Acquired? ==> db' == db)
      && (res.MissingSubmission? <==> asked && !found)
      && (res.LiveAttempt? <==>
            && found && db.subs[s].status == Running && db.subs[s].token.Some? && db.subs[s].lease.Some?
            && now < db.subs[s].lease.value)
      && (res.LiveAttempt? ==> Some(res.leaseUntil) == db.subs[s].lease)
      && (res.ExpiredAttempt? <==> found && db.subs[s].status == Running && !res.LiveAttempt?)
      && (res.AlreadyCompleted? <==>
            found && db.subs[s].status == Completed && db.subs[s].verdict.Some? && Playable(db, s))
      && (res.Acquired? <==>
            && found && db.subs[s].status == Pending && Playable(db, s)
            && db.subs[s].code != "" && db.subs[s].language in {"python", "cpp", "java"})
  {
  }

  /** Every answer of a completion exactly in its own case, on any tables; only an
      applied one writes. */
  lemma CompleteExactly(db: Db, c: Claimed, r: Terminal, now: nat)
    ensures var (db', res) := CompleteTx(db, c, r, now);
      && (res.CompleteError? <==>
            || c.sub == NIL || c.matchId == NIL || c.player == NIL || c.request == NIL || c.token == NIL
            || c.tests == 0 || c.matchId !in db.matches || c.sub !in db.subs || r.passed < 0 || r.passed > c.tests
            || (r.verdict == VPass && (r.failure != None || r.passed != c.tests))
            || (r.verdict == VFail && r.failure != Some(WrongAnswer))
            || (r.verdict == VError && r.failure !in {Some(CompileError), Some(RuntimeError), Some(OutputLimit)})
            || (r.verdict == VTimeout && r.failure != None)
            || r.verdict == VFailed)
      && (res.Applied? <==>
            && !res.CompleteError? && db.subs[c.sub].status == Running && db.subs[c.sub].token == Some(c.token)
            && db.subs[c.sub].matchId == c.matchId && db.subs[c.sub].player == c.player)
      && (!res.Applied? ==> db' == db)
  {
  }

  /** A running submission is reported as live exactly while its lease lasts, and left
      to the reaper from its last instant on. */
  lemma RunningClaims(max: nat, db: Db, s: Uuid, token: Uuid, lease: nat, now: nat)
    requires DbInv(max, db) && token != NIL && lease > 0 && s in db.subs && db.subs[s].status == Running
    ensures var res := ClaimTx(db, s, token, lease, now).1;
      && db.subs[s].lease.Some?
      && (res == LiveAttempt(db.subs[s].lease.value) <==> now < db.subs[s].lease.value)
      && (res == ExpiredAttempt <==> db.subs[s].lease.value <= now)
  {
    assert SubOk(db, max, db.subs[s]) && MatchOk(db, db.matches[db.subs[s].matchId]);
  }

  lemma CompleteKeeps(max: nat, db: Db, c: Claimed, r: Terminal, now: nat)
    requires DbInv(max, db) && ClaimFits(db, c)
    ensures DbInv(max, CompleteTx(db, c, r, now).0) && Evolves(db, CompleteTx(db, c, r, now).0)
  {
    hide DbInv, Evolves;
    var (db', res) := CompleteTx(db, c, r, now);
    if res.Applied? {
      JudgedKeeps(max, db, c, r, now);
    } else {
      assert db' == db;
      EvolvesReflexive(db);
    }
  }

  lemma JudgedKeeps(max: nat, db: Db, c: Claimed, r: Terminal, now: nat)
    requires DbInv(max, db) && ClaimFits(db, c) && Owns(db.subs[c.sub], c) && ValidTerminal(r, c.tests)
    ensures DbInv(max, CompleteTx(db, c, r, now).0) && Evolves(db, CompleteTx(db, c, r, now).0)
  {
    var row := Judged(db.subs[c.sub], r, now);
    var done := WithSub(db, c.sub, row);
    assert SubOk(db, max, db.subs[c.sub]) && Standing(db, c.matchId);
    CompleteSub(max, db, c.sub, row);
    if r.verdict == VPass && db.matches[c.matchId].status == Active {
      hide Evolves;
      WinnerTakesAll(max, done, c.sub);
      FinishKeepsInv(max, done, c.matchId, Some(c.player));
      EvolvesTransitive(db, done, CompleteTx(db, c, r, now).0);
    }
  }

  /** A full pass is unbeatable: no other score can exceed the number of tests. */
  lemma WinnerTakesAll(max: nat, db: Db, s: Uuid)
    requires SubsOk(max, db) && s in db.subs && db.subs[s].verdict == Some(VPass)
    ensures db.subs[s].matchId in db.matches
    ensures Unbeaten(db, db.subs[s].matchId, db.subs[s].player)
    ensures Best(db, db.subs[s].matchId, db.subs[s].player) == TotalTests(db, db.subs[s].matchId)
  {
    var row := db.subs[s];
    assert SubOk(db, max, row);
    assert row.passed in Scores(db, row.matchId, row.player);
    forall p ensures Best(db, row.matchId, p) <= TotalTests(db, row.matchId) { BestBound(max, db, row.matchId, p); }
  }

  /** `Complete` writes exactly when the attempt still owns the running row; then
      the record it returns is the record the row stands for, and a pass leaves
      the match with a winner. */
  lemma CompleteMeaning(max: nat, db: Db, c: Claimed, r: Terminal, now: nat)
    requires DbInv(max, db) && ClaimFits(db, c) && ValidTerminal(r, c.tests)
    ensures var (db', res) := CompleteTx(db, c, r, now);
      && (res.Applied? <==> Owns(db.subs[c.sub], c))
      && (!res.Applied? ==> db' == db && res.LostOwnership?)
      && (res.Applied? ==>
            (&& db'.subs[c.sub] == Judged(db.subs[c.sub], r, now)
             && db'.subs[c.sub] == db.subs[c.sub].(status := Completed, verdict := Some(r.verdict),
                                                   failure := r.failure, passed := r.passed,
                                                   finishedAt := Some(now), token := None, lease := None)
             && res.record == RecordOf(db', c.sub, c.tests) && TellsRow(db', c.sub, res.record)
             && (r.verdict == VPass ==> res.record.winner.Some?)
             && db'.subs.Keys == db.subs.Keys
             && (forall s | s in db.subs && s != c.sub :: db'.subs[s] == db.subs[s])))
  {
  }

  /** The first pass of an active match wins it for its submitter; no other completion
      touches a match or a claim. */
  lemma CompleteDecides(max: nat, db: Db, c: Claimed, r: Terminal, now: nat)
    requires DbInv(max, db) && ClaimFits(db, c) && ValidTerminal(r, c.tests) && Owns(db.subs[c.sub], c)
    ensures var db' := CompleteTx(db, c, r, now).0;
      var game := db.matches[c.matchId];
      if r.verdict == VPass && game.status == Active then
        && db'.matches == db.matches[c.matchId := game.(status := Finished, winner := Some(c.player))]
        && (forall u :: u in db'.claims <==> u in db.claims && u !in game.players)
      else
        db'.matches == db.matches && db'.claims == db.claims
  {
    assert Standing(db, c.matchId);
  }
}
