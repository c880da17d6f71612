// The PostgreSQL tables, one value per row, and what the schema and the
// services keep true of them.
module Rows {
  import opened Base

  datatype Verdict = VPass | VFail | VError | VTimeout | VFailed
  datatype FailureKind = WrongAnswer | CompileError | RuntimeError | OutputLimit | InfrastructureError
  datatype Status = Pending | Running | Completed
  datatype MatchStatus = Active | Finished

  datatype Submission = Submission(
    matchId: Uuid, player: Uuid, request: Uuid, language: string, code: string, created: nat,
    status: Status, attempts: nat, token: Option<Uuid>, lease: Option<nat>, enqueued: Option<nat>,
    verdict: Option<Verdict>, failure: Option<FailureKind>, passed: nat, finishedAt: Option<nat>)

  /** A match row with its `match_players` rows in slot order (slot = index + 1). */
  datatype Match = Match(
    problem: Uuid, status: MatchStatus, winner: Option<Uuid>, deadline: nat, players: seq<Uuid>)

  /** `wellFormed` says that every stored test decodes. */
  datatype Problem = Problem(tests: nat, wellFormed: bool, created: nat)

  datatype Db = Db(
    users: set<Uuid>,
    problems: map<Uuid, Problem>,
    matches: map<Uuid, Match>,
    subs: map<Uuid, Submission>,
    claims: map<Uuid, Uuid>)          // active_match_players: user -> match

  predicate KnownLanguage(language: string) {
    language == "python" || language == "cpp" || language == "java"
  }

  // -------------------------------------------------------------- derived facts

  function TotalTests(db: Db, m: Uuid): nat
    requires m in db.matches
  {
    if db.matches[m].problem in db.problems then db.problems[db.matches[m].problem].tests else 0
  }

  function SubsOf(db: Db, m: Uuid): set<Uuid> {
    set s | s in db.subs && db.subs[s].matchId == m
  }

  function Scores(db: Db, m: Uuid, p: Uuid): set<nat> {
    {0} + set s | s in db.subs && db.subs[s].matchId == m && db.subs[s].player == p
                && db.subs[s].status == Completed :: db.subs[s].passed
  }

  /** A player's best completed score in a match, 0 without one. */
  function Best(db: Db, m: Uuid, p: Uuid): nat {
    MaxOf(Scores(db, m, p))
  }

  /** It is the highest number of tests passed by a completed submission of the player,
      and 0 if none passed any. */
  lemma BestMeaning(db: Db, m: Uuid, p: Uuid)
    ensures forall s | s in db.subs && db.subs[s].matchId == m && db.subs[s].player == p
                       && db.subs[s].status == Completed :: db.subs[s].passed <= Best(db, m, p)
    ensures Best(db, m, p) == 0
      || exists s :: s in db.subs && db.subs[s].matchId == m && db.subs[s].player == p
                     && db.subs[s].status == Completed && db.subs[s].passed == Best(db, m, p)
  {
    forall s | s in db.subs && db.subs[s].matchId == m && db.subs[s].player == p && db.subs[s].status == Completed
      ensures db.subs[s].passed <= Best(db, m, p)
    {
      assert db.subs[s].passed in Scores(db, m, p);
    }
  }

  ghost predicate AllCompleted(db: Db, m: Uuid) {
    forall s | s in db.subs && db.subs[s].matchId == m :: db.subs[s].status == Completed
  }

  // ----------------------------------------------------------------- invariants

  /** Two distinct players of the users table in slots 1 and 2, a stored problem,
      and a winner who plays. */
  ghost predicate MatchOk(db: Db, row: Match) {
    && |row.players| == 2
    && row.players[0] != row.players[1]
    && (forall i | 0 <= i < 2 :: row.players[i] != NIL && row.players[i] in db.users)
    && row.problem in db.problems
    && (row.winner.Some? ==> row.winner.value in row.players)
  }

  /** Row lifecycle, attempt cap and score range of one submission. */
  ghost predicate SubOk(db: Db, max: nat, row: Submission) {
    && row.matchId in db.matches
    && row.player in db.matches[row.matchId].players
    && row.request != NIL && KnownLanguage(row.language) && row.code != ""
    && (row.status == Running <==> row.token.Some?)
    && (row.status == Running <==> row.lease.Some?)
    && (row.status == Completed <==> row.verdict.Some?)
    && (row.status == Completed <==> row.finishedAt.Some?)
    && (row.status == Pending ==> row.attempts < max)
    && (row.status != Pending ==> 1 <= row.attempts <= max)
    && (row.status != Completed ==> row.passed == 0 && row.failure.None?)
    && row.passed <= TotalTests(db, row.matchId)
    && (row.verdict == Some(VPass) ==> row.passed == TotalTests(db, row.matchId))
  }

  /** What the result of a match means for the submissions it has. */
  ghost predicate Standing(db: Db, m: Uuid)
    requires m in db.matches
  {
    var row := db.matches[m];
    if row.status == Active then
      row.winner.None? && NoPass(db, m)
    else if row.winner.None? then
      AllCompleted(db, m) && EvenScores(db, m) && NoPass(db, m)
    else
      Unbeaten(db, m, row.winner.value) && (AllCompleted(db, m) || Best(db, m, row.winner.value) == TotalTests(db, m))
  }

  ghost predicate NoPass(db: Db, m: Uuid) {
    forall s | s in db.subs && db.subs[s].matchId == m :: db.subs[s].verdict != Some(VPass)
  }

  ghost predicate EvenScores(db: Db, m: Uuid)
    requires m in db.matches
  {
    forall p, q | p in db.matches[m].players && q in db.matches[m].players :: Best(db, m, p) == Best(db, m, q)
  }

  ghost predicate Unbeaten(db: Db, m: Uuid, w: Uuid)
    requires m in db.matches
  {
    forall p | p in db.matches[m].players :: Best(db, m, p) <= Best(db, m, w)
  }

  /** `active_match_players` is exactly the membership of the active matches. */
  ghost predicate ClaimsExact(db: Db) {
    && (forall u | u in db.claims ::
          && db.claims[u] in db.matches
          && db.matches[db.claims[u]].status == Active
          && u in db.matches[db.claims[u]].players)
    && (forall m, u | m in db.matches && db.matches[m].status == Active && u in db.matches[m].players ::
          u in db.claims && db.claims[u] == m)
  }

  ghost predicate UniqueRequests(db: Db) {
    forall a, b | a in db.subs && b in db.subs && db.subs[a].player == db.subs[b].player
                  && db.subs[a].request == db.subs[b].request :: a == b
  }

  ghost predicate NilUnused(db: Db) {
    NIL !in db.subs && NIL !in db.matches && NIL !in db.users
  }

  ghost predicate MatchesOk(db: Db) {
    forall m | m in db.matches :: MatchOk(db, db.matches[m])
  }

  ghost predicate SubsOk(max: nat, db: Db) {
    forall s | s in db.subs :: SubOk(db, max, db.subs[s])
  }

  ghost predicate StandingsOk(db: Db) {
    forall m | m in db.matches :: Standing(db, m)
  }

  ghost predicate DbInv(max: nat, db: Db) {
    NilUnused(db) && MatchesOk(db) && SubsOk(max, db) && StandingsOk(db) && ClaimsExact(db) && UniqueRequests(db)
  }

  // ------------------------------------------------------------------ evolution

  /** The columns of a submission that no statement ever updates. */
  predicate SameRequest(a: Submission, b: Submission) {
    && a.matchId == b.matchId && a.player == b.player && a.request == b.request
    && a.language == b.language && a.code == b.code && a.created == b.created
  }

  /** What any number of transactions may do to the tables. A finished match keeps
      its result and takes no new submission; a completed submission is frozen. */
  ghost predicate Evolves(before: Db, after: Db) {
    && before.users <= after.users
    && before.problems == after.problems
    && (forall m | m in before.matches ::
          && m in after.matches
          && after.matches[m].players == before.matches[m].players
          && after.matches[m].problem == before.matches[m].problem
          && after.matches[m].deadline == before.matches[m].deadline
          && (before.matches[m].status == Finished ==> after.matches[m] == before.matches[m]))
    && (forall s | s in before.subs ::
          && s in after.subs
          && SameRequest(before.subs[s], after.subs[s])
          && before.subs[s].attempts <= after.subs[s].attempts
          && (before.subs[s].status == Completed ==> after.subs[s] == before.subs[s]))
    && (forall s | s in after.subs && s !in before.subs && after.subs[s].matchId in before.matches ::
          before.matches[after.subs[s].matchId].status == Active)
  }

  lemma EvolvesReflexive(a: Db)
    ensures Evolves(a, a)
  {
  }

  lemma EvolvesTransitive(a: Db, b: Db, c: Db)
    requires Evolves(a, b) && Evolves(b, c)
    ensures Evolves(a, c)
  {
  }

  // -------------------------------------------------------------------- framing

  /** The completed submissions of a match are the same rows before and after. */
  ghost predicate SameCompleted(before: Db, after: Db, m: Uuid) {
    && (forall s | s in before.subs && before.subs[s].matchId == m && before.subs[s].status == Completed ::
          s in after.subs && after.subs[s] == before.subs[s])
    && (forall s | s in after.subs && after.subs[s].matchId == m && after.subs[s].status == Completed ::
          s in before.subs && after.subs[s] == before.subs[s])
  }

  lemma BestFrame(before: Db, after: Db, m: Uuid, p: Uuid)
    requires SameCompleted(before, after, m)
    ensures Best(after, m, p) == Best(before, m, p)
  {
    assert Scores(after, m, p) == Scores(before, m, p);
  }

  /** An untouched match keeps its standing when no completed row of it changed. */
  lemma StandingFrame(before: Db, after: Db, m: Uuid)
    requires m in before.matches && m in after.matches && after.matches[m] == before.matches[m]
    requires after.problems == before.problems
    requires SameCompleted(before, after, m)
    requires NoPass(before, m) ==> NoPass(after, m)
    requires AllCompleted(before, m) && before.matches[m].status == Finished ==> AllCompleted(after, m)
    requires Standing(before, m)
    ensures Standing(after, m)
  {
    forall p ensures Best(after, m, p) == Best(before, m, p) { BestFrame(before, after, m, p); }
  }

  lemma BestBound(max: nat, db: Db, m: Uuid, p: Uuid)
    requires m in db.matches && SubsOk(max, db)
    ensures Best(db, m, p) <= TotalTests(db, m)
  {
  }
}
