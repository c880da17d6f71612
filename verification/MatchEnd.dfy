// internal/reaper/matches.go: settling matches whose deadline has passed.
module MatchEnd {
  import opened Base
  import opened Rows
  import opened RowUpdates

  datatype Settlement = Settlement(game: Uuid, players: seq<Uuid>, scores: seq<nat>, total: nat, winner: Option<Uuid>)

  function OpenSubs(db: Db, m: Uuid): set<Uuid> {
    set s | s in db.subs && db.subs[s].matchId == m && db.subs[s].status != Completed
  }

  /** The higher score wins, equal scores draw. */
  function DecideTiebreak(players: seq<Uuid>, scores: seq<nat>): Option<Uuid>
    requires |players| == 2 && |scores| == 2
  {
    if scores[0] > scores[1] then Some(players[0])
    else if scores[1] > scores[0] then Some(players[1])
    else None
  }

  predicate PlayersUsable(players: seq<Uuid>) {
    |players| == 2 && players[0] != NIL && players[1] != NIL && players[0] != players[1]
  }

  function BestScores(db: Db, m: Uuid): seq<nat>
    requires m in db.matches && |db.matches[m].players| == 2
  {
    [Best(db, m, db.matches[m].players[0]), Best(db, m, db.matches[m].players[1])]
  }

  /** `finalizeMatch` on one selected match. */
  function FinalizeTx(db: Db, m: Uuid): (Db, Option<Settlement>) {
    if m !in db.matches || OpenSubs(db, m) != {} then (db, None)
    else
      var game := db.matches[m];
      if !PlayersUsable(game.players) then (db, None)
      else
        var scores := BestScores(db, m);
        var winner := DecideTiebreak(game.players, scores);
        if game.status == Active && game.winner.None? then
          (FinishMatch(db, m, winner), Some(Settlement(m, game.players, scores, TotalTests(db, m), winner)))
        else (db, None)
  }

  function FinalizeAll(db: Db, ids: seq<Uuid>): Db
    decreases |ids|
  {
    if ids == [] then db else FinalizeAll(FinalizeTx(db, ids[0]).0, ids[1..])
  }

  /** What the loop reports: one settlement per match that it closes. */
  function Settlements(db: Db, ids: seq<Uuid>): seq<Settlement>
    decreases |ids|
  {
    if ids == [] then []
    else
      var (db', one) := FinalizeTx(db, ids[0]);
      (if one.Some? then [one.value] else []) + Settlements(db', ids[1..])
  }

  /** Active matches past their deadline and not locked by another transaction. */
  function DueKeys(db: Db, now: nat, locked: set<Uuid>): map<Uuid, nat> {
    map m | m in db.matches && db.matches[m].status == Active && db.matches[m].deadline <= now && m !in locked ::
      db.matches[m].deadline
  }

  lemma FinalizeKeeps(max: nat, db: Db, m: Uuid)
    requires DbInv(max, db)
    ensures var db' := FinalizeTx(db, m).0; DbInv(max, db') && Evolves(db, db')
  {
    hide Evolves;
    var (db', done) := FinalizeTx(db, m);
    if done.Some? {
      AllSettled(db, m);
      assert Standing(db, m);
      TiebreakIsFair(db, m);
      FinishKeepsInv(max, db, m, done.value.winner);
    } else {
      hide DbInv;
      assert db' == db;
      EvolvesReflexive(db);
    }
  }

  /** Deciding by best scores never crowns a player who is behind. */
  lemma TiebreakIsFair(db: Db, m: Uuid)
    requires m in db.matches && |db.matches[m].players| == 2
    ensures var players := db.matches[m].players;
      match DecideTiebreak(players, BestScores(db, m))
      case Some(w) => w in players && Unbeaten(db, m, w)
      case None => EvenScores(db, m)
  {
  }

  lemma AllSettled(db: Db, m: Uuid)
    ensures OpenSubs(db, m) == {} <==> AllCompleted(db, m)
  {
    if OpenSubs(db, m) == {} {
      forall s | s in db.subs && db.subs[s].matchId == m ensures db.subs[s].status == Completed {
        assert s !in OpenSubs(db, m);
      }
    }
  }

  /** An active match is settled exactly when none of its submissions is open, and
      then by the best scores: the winner is strictly ahead, a draw means equality. */
  lemma FinalizeMeaning(max: nat, db: Db, m: Uuid)
    requires DbInv(max, db) && m in db.matches && db.matches[m].status == Active
    ensures var (db', done) := FinalizeTx(db, m);
      && (done.Some? <==> AllCompleted(db, m))
      && (done.None? ==> db' == db)
      && (done.Some? ==> db' == FinishMatch(db, m, done.value.winner) && DecidedByScore(db', m))
      && (done.Some? ==> |db'.matches[m].players| == 2 && done.value.scores == BestScores(db', m)
                         && Reports(db', m, done.value))
  {
    assert PlayersUsable(db.matches[m].players) && db.matches[m].winner.None? by {
      assert MatchOk(db, db.matches[m]) && Standing(db, m);
    }
    AllSettled(db, m);
    var winner := DecideTiebreak(db.matches[m].players, BestScores(db, m));
    ScoresAfterFinish(db, m, winner);
    FairlyDecided(db, m);
    hide DbInv, Best, TotalTests, AllCompleted, OpenSubs, DecideTiebreak, DecidedByScore, FinishMatch;
  }

  /** The settlement says what the closed match says, with each player's best score. */
  ghost predicate Reports(db: Db, m: Uuid, z: Settlement)
    requires m in db.matches
  {
    var row := db.matches[m];
    && z.game == m && z.players == row.players && z.winner == row.winner
    && row.problem in db.problems && z.total == db.problems[row.problem].tests
    && |z.scores| == |row.players| && forall i | 0 <= i < |z.scores| :: z.scores[i] == Best(db, m, row.players[i])
  }

  /** The stored winner of a match is the player who is strictly ahead, if any. */
  ghost predicate DecidedByScore(db: Db, m: Uuid)
    requires m in db.matches
  {
    forall w, o | w in db.matches[m].players && o in db.matches[m].players && w != o ::
      db.matches[m].winner == Some(w) <==> Best(db, m, w) > Best(db, m, o)
  }

  lemma FairlyDecided(db: Db, m: Uuid)
    requires m in db.matches && PlayersUsable(db.matches[m].players)
    ensures DecidedByScore(FinishMatch(db, m, DecideTiebreak(db.matches[m].players, BestScores(db, m))), m)
  {
    ScoresAfterFinish(db, m, DecideTiebreak(db.matches[m].players, BestScores(db, m)));
    hide Best, FinishMatch;
  }

  lemma ScoresAfterFinish(db: Db, m: Uuid, winner: Option<Uuid>)
    requires m in db.matches
    ensures var db' := FinishMatch(db, m, winner);
      && m in db'.matches
      && db'.matches[m] == db.matches[m].(status := Finished, winner := winner)
      && forall p :: Best(db', m, p) == Best(db, m, p)
  {
  }

  lemma {:induction false} FinalizeAllKeeps(max: nat, db: Db, ids: seq<Uuid>)
    requires DbInv(max, db)
    ensures DbInv(max, FinalizeAll(db, ids)) && Evolves(db, FinalizeAll(db, ids))
    decreases |ids|
  {
    hide DbInv, Evolves;
    if ids == [] {
      EvolvesReflexive(db);
    } else {
      var mid := FinalizeTx(db, ids[0]).0;
      FinalizeKeeps(max, db, ids[0]);
      FinalizeAllKeeps(max, mid, ids[1..]);
      EvolvesTransitive(db, mid, FinalizeAll(db, ids));
    }
  }

  /** On any tables, a match is closed exactly if it is active and undecided, has two
      different players, and no submission of it is open. */
  lemma FinalizeExactly(db: Db, m: Uuid)
    ensures var (db', done) := FinalizeTx(db, m);
      && (done.Some? <==>
            && m in db.matches && db.matches[m].status == Active && db.matches[m].winner == None
            && |db.matches[m].players| == 2 && NIL !in db.matches[m].players
            && db.matches[m].players[0] != db.matches[m].players[1]
            && forall s | s in db.subs && db.subs[s].matchId == m :: db.subs[s].status == Completed)
      && (done.None? ==> db' == db)
  {
    AllSettled(db, m);
    hide Best, TotalTests, OpenSubs;
  }

  // ---------------------------------------------------------------- what a batch settles

  /** Some completed submission of `w` passed more tests than any of `o`. */
  ghost predicate Outscores(db: Db, m: Uuid, w: Uuid, o: Uuid) {
    exists s :: s in db.subs && db.subs[s].matchId == m && db.subs[s].player == w && db.subs[s].status == Completed
                && db.subs[s].passed > 0
                && forall t | t in db.subs && db.subs[t].matchId == m && db.subs[t].player == o
                              && db.subs[t].status == Completed :: db.subs[t].passed < db.subs[s].passed
  }

  lemma OutscoresIff(db: Db, m: Uuid, w: Uuid, o: Uuid)
    ensures Outscores(db, m, w, o) <==> Best(db, m, w) > Best(db, m, o)
  {
    BestMeaning(db, m, w);
    BestMeaning(db, m, o);
    hide Best;
  }

  /** The winner is whoever outscores the other player, and nobody if neither does. */
  ghost predicate WonByScore(db: Db, m: Uuid, winner: Option<Uuid>)
    requires m in db.matches
  {
    var players := db.matches[m].players;
    && (winner.Some? ==> winner.value in players)
    && forall w, o | w in players && o in players && w != o :: winner == Some(w) <==> Outscores(db, m, w, o)
  }

  /** What settling makes of a match: closed by score if it is one of the `chosen` and
      no submission of it is open, and otherwise what it was. */
  ghost predicate SettledExactly(db: Db, db': Db, m: Uuid, chosen: bool)
    requires m in db.matches && m in db'.matches
  {
    if chosen && forall s | s in db.subs && db.subs[s].matchId == m :: db.subs[s].status == Completed then
      db'.matches[m] == db.matches[m].(status := Finished, winner := db'.matches[m].winner)
      && WonByScore(db, m, db'.matches[m].winner)
    else
      db'.matches[m] == db.matches[m]
  }

  lemma SettledOne(max: nat, db: Db, m: Uuid)
    requires DbInv(max, db) && m in db.matches && db.matches[m].status == Active
    ensures var db' := FinalizeTx(db, m).0;
      && db' == db.(matches := db'.matches, claims := db'.claims) && db'.matches.Keys == db.matches.Keys
      && SettledExactly(db, db', m, true) && forall n | n in db.matches && n != m :: db'.matches[n] == db.matches[n]
  {
    hide DbInv, FinalizeTx, FinishMatch, Best, BestScores, OpenSubs, WonByScore, DecidedByScore, TotalTests;
    FinalizeMeaning(max, db, m);
    var (db', done) := FinalizeTx(db, m);
    if done.Some? {
      ScoresAfterFinish(db, m, done.value.winner);
      FinishTables(db, m, done.value.winner);
      WonIfSettled(max, db, m);
    }
  }

  lemma FinishTables(db: Db, m: Uuid, winner: Option<Uuid>)
    requires m in db.matches
    ensures var db' := FinishMatch(db, m, winner);
      && db' == db.(matches := db'.matches, claims := db'.claims) && db'.matches.Keys == db.matches.Keys
      && forall n | n in db.matches && n != m :: db'.matches[n] == db.matches[n]
  {
  }

  lemma WonIfSettled(max: nat, db: Db, m: Uuid)
    requires DbInv(max, db) && m in db.matches && db.matches[m].status == Active && FinalizeTx(db, m).1.Some?
    ensures WonByScore(db, m, FinalizeTx(db, m).1.value.winner)
  {
    hide DbInv, FinalizeTx, FinishMatch, Best, BestScores, OpenSubs, Outscores, AllCompleted;
    FinalizeMeaning(max, db, m);
    var winner := FinalizeTx(db, m).1.value.winner;
    ScoresAfterFinish(db, m, winner);
    WinnerPlays(max, db, m);
    var players := db.matches[m].players;
    forall w, o | w in players && o in players && w != o ensures winner == Some(w) <==> Outscores(db, m, w, o) {
      OutscoresIff(db, m, w, o);
    }
  }

  lemma WinnerPlays(max: nat, db: Db, m: Uuid)
    requires DbInv(max, db) && FinalizeTx(db, m).1.Some?
    ensures var winner := FinalizeTx(db, m).1.value.winner; winner.Some? ==> winner.value in db.matches[m].players
  {
  }

  lemma {:induction false} SettledAll(max: nat, db: Db, ids: seq<Uuid>)
    requires DbInv(max, db) && NoDuplicates(ids)
    requires forall i | 0 <= i < |ids| :: ids[i] in db.matches && db.matches[ids[i]].status == Active
    ensures var db' := FinalizeAll(db, ids);
      && db' == db.(matches := db'.matches, claims := db'.claims) && db'.matches.Keys == db.matches.Keys
      && forall m | m in db.matches :: SettledExactly(db, db', m, m in ids)
    decreases |ids|
  {
    hide DbInv, FinalizeTx, SettledExactly;
    if ids == [] {
      forall m | m in db.matches ensures SettledExactly(db, db, m, false) { Untouched(db, db, m); }
    } else {
      var mid := FinalizeTx(db, ids[0]).0;
      SettledOne(max, db, ids[0]);
      FinalizeKeeps(max, db, ids[0]);
      forall i | 0 <= i < |ids[1..]|
        ensures ids[1..][i] in mid.matches && mid.matches[ids[1..][i]].status == Active
      {
        assert ids[1..][i] == ids[i + 1] && ids[i + 1] != ids[0];
      }
      SettledAll(max, mid, ids[1..]);
      assert ids == [ids[0]] + ids[1..] && ids[0] !in ids[1..];
      forall m | m in db.matches ensures SettledExactly(db, FinalizeAll(db, ids), m, m in ids) {
        SettledThrough(db, mid, FinalizeAll(db, ids), m, m == ids[0], m in ids[1..]);
      }
    }
  }

  /** Whatever the matches of a batch are, no other match changes. */
  lemma {:induction false} OnlyChosen(db: Db, ids: seq<Uuid>)
    ensures forall m | m in db.matches && m !in ids ::
        m in FinalizeAll(db, ids).matches && FinalizeAll(db, ids).matches[m] == db.matches[m]
    decreases |ids|
  {
    if ids != [] {
      var mid := FinalizeTx(db, ids[0]).0;
      forall m | m in db.matches && m != ids[0] ensures m in mid.matches && mid.matches[m] == db.matches[m] {}
      OnlyChosen(mid, ids[1..]);
      assert ids == [ids[0]] + ids[1..];
      hide FinalizeTx;
    }
  }

  lemma PageIsDue(db: Db, batch: nat, now: nat, locked: set<Uuid>)
    ensures forall m | m in Oldest(DueKeys(db, now, locked), batch) :: m in db.matches && db.matches[m].deadline <= now
  {
    OldestIsPage(DueKeys(db, now, locked), batch);
    hide Oldest;
  }

  /** The loop reports exactly the matches that it closes, as they are stored. */
  lemma {:induction false} ReportsAll(max: nat, db: Db, ids: seq<Uuid>)
    requires DbInv(max, db) && NoDuplicates(ids)
    requires forall i | 0 <= i < |ids| :: ids[i] in db.matches && db.matches[ids[i]].status == Active
    ensures var db' := FinalizeAll(db, ids);
      && (forall z | z in Settlements(db, ids) :: z.game in ids && z.game in db'.matches && Reports(db', z.game, z))
      && (forall m | m in ids :: m in db'.matches
            && (db'.matches[m].status == Finished <==> exists z :: z in Settlements(db, ids) && z.game == m))
    decreases |ids|
  {
    hide DbInv, FinalizeTx, SettledExactly, Reports;
    if ids != [] {
      var (mid, one) := FinalizeTx(db, ids[0]);
      SettledOne(max, db, ids[0]);
      FinalizeKeeps(max, db, ids[0]);
      ReportsOne(max, db, ids[0]);
      forall i | 0 <= i < |ids[1..]|
        ensures ids[1..][i] in mid.matches && mid.matches[ids[1..][i]].status == Active
      {
        assert ids[1..][i] == ids[i + 1] && ids[i + 1] != ids[0];
      }
      ReportsAll(max, mid, ids[1..]);
      OnlyChosen(mid, ids[1..]);
      assert ids == [ids[0]] + ids[1..] && ids[0] !in ids[1..];
      var db', rest := FinalizeAll(db, ids), Settlements(mid, ids[1..]);
      SettledAll(max, mid, ids[1..]);
      if one.Some? {
        ReportKept(mid, db', ids[0], one.value);
        assert one.value in Settlements(db, ids);
      }
      assert forall z | z in rest :: z in Settlements(db, ids);
    }
  }

  lemma ReportsOne(max: nat, db: Db, m: Uuid)
    requires DbInv(max, db) && m in db.matches && db.matches[m].status == Active
    ensures var (db', one) := FinalizeTx(db, m);
      && m in db'.matches && (one.Some? <==> db'.matches[m].status == Finished)
      && (one.Some? ==> one.value.game == m && Reports(db', m, one.value))
  {
    FinalizeMeaning(max, db, m);
    hide DbInv, Best, OpenSubs;
  }

  lemma ReportKept(mid: Db, db': Db, m: Uuid, z: Settlement)
    requires m in mid.matches && m in db'.matches && db'.matches[m] == mid.matches[m]
    requires mid.subs == db'.subs && mid.problems == db'.problems && Reports(mid, m, z)
    ensures Reports(db', m, z)
  {
  }

  lemma Untouched(db: Db, db': Db, m: Uuid)
    requires m in db.matches && m in db'.matches && db'.matches[m] == db.matches[m]
    ensures SettledExactly(db, db', m, false)
  {
  }

  lemma SettledThrough(db: Db, mid: Db, db': Db, m: Uuid, first: bool, later: bool)
    requires mid.subs == db.subs && m in db.matches && m in mid.matches && m in db'.matches && !(first && later)
    requires if first then SettledExactly(db, mid, m, true) else mid.matches[m] == db.matches[m]
    requires SettledExactly(mid, db', m, later)
    ensures SettledExactly(db, db', m, first || later)
  {
    var players := db.matches[m].players;
    if mid.matches[m].players == players {
      forall w, o ensures Outscores(mid, m, w, o) <==> Outscores(db, m, w, o) {}
    }
  }

  /** Active unlocked matches past their deadline with an earlier one than `m`, equal
      deadlines by id. */
  function OverBefore(db: Db, now: nat, locked: set<Uuid>, m: Uuid): set<Uuid>
    requires m in db.matches
  {
    set n | n in db.matches && n !in locked && db.matches[n].status == Active && db.matches[n].deadline <= now
            && (db.matches[n].deadline < db.matches[m].deadline
                || (db.matches[n].deadline == db.matches[m].deadline && n < m))
  }

  /** A batch finishes a match exactly if it is active, its deadline has come, nobody has
      it locked, fewer than `batch` such matches come before it and none of its
      submissions is open; then by score. It changes no submission, and takes away the
      claims of exactly the matches it finishes. */
  lemma SettleMeaning(max: nat, db: Db, batch: nat, now: nat, locked: set<Uuid>)
    requires DbInv(max, db)
    ensures var db' := FinalizeAll(db, Oldest(DueKeys(db, now, locked), batch));
      && db' == db.(matches := db'.matches, claims := db'.claims) && db'.matches.Keys == db.matches.Keys
      && (forall m | m in db.matches ::
            SettledExactly(db, db', m,
                           db.matches[m].status == Active && db.matches[m].deadline <= now && m !in locked
                           && |OverBefore(db, now, locked, m)| < batch))
      && (forall m | m in db.matches && (now < db.matches[m].deadline || db.matches[m].status == Finished) ::
            db'.matches[m] == db.matches[m])
      && (forall u :: u in db'.claims <==> u in db.claims && db'.matches[db.claims[u]].status == Active)
      && (forall u | u in db'.claims :: db'.claims[u] == db.claims[u])
  {
    hide Oldest, FinalizeAll, SettledExactly, Ahead, OverBefore, Evolves, StandingsOk, SubsOk,
      UniqueRequests, NilUnused;
    var keys := DueKeys(db, now, locked);
    var page := Oldest(keys, batch);
    OldestIsPage(keys, batch);
    SettledAll(max, db, page);
    FinalizeAllKeeps(max, db, page);
    var db' := FinalizeAll(db, page);
    forall m | m in db.matches
      ensures m in page <==> db.matches[m].status == Active && db.matches[m].deadline <= now && m !in locked
                             && |OverBefore(db, now, locked, m)| < batch
    {
      if m in keys {
        OnPageIff(keys, batch, m);
        AheadIsOver(db, now, locked, m);
      }
    }
    forall m | m in db.matches && m !in page ensures db'.matches[m] == db.matches[m] {
      NotChosen(db, db', m);
    }
    ClaimsFollow(max, db, db');
  }

  lemma NotChosen(db: Db, db': Db, m: Uuid)
    requires m in db.matches && m in db'.matches && SettledExactly(db, db', m, false)
    ensures db'.matches[m] == db.matches[m]
  {
  }

  lemma AheadIsOver(db: Db, now: nat, locked: set<Uuid>, m: Uuid)
    requires m in DueKeys(db, now, locked)
    ensures Ahead(DueKeys(db, now, locked), m) == OverBefore(db, now, locked, m)
  {
  }

  /** Which claims are left once some matches have finished. */
  lemma ClaimsFollow(max: nat, db: Db, db': Db)
    requires DbInv(max, db) && DbInv(max, db') && Evolves(db, db') && db'.matches.Keys == db.matches.Keys
    ensures forall u :: u in db'.claims <==> u in db.claims && db'.matches[db.claims[u]].status == Active
    ensures forall u | u in db'.claims :: db'.claims[u] == db.claims[u]
  {
    hide StandingsOk, SubsOk, UniqueRequests, NilUnused, MatchesOk;
  }
}
