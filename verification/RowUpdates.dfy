// How single-row statements keep the table invariant.
module RowUpdates {
  import opened Base
  import opened Rows

  function WithSub(db: Db, s: Uuid, row: Submission): Db {
    db.(subs := db.subs[s := row])
  }

  /** `UPDATE matches SET status = 'finished', winner_id = ...` together with the
      trigger `matches_sync_active_claims`, which drops the match's claims. */
  function FinishMatch(db: Db, m: Uuid, winner: Option<Uuid>): Db
    requires m in db.matches
  {
    db.(matches := db.matches[m := db.matches[m].(status := Finished, winner := winner)],
        claims := map u | u in db.claims && db.claims[u] != m :: db.claims[u])
  }

  /** `db'` differs from `db` in at most the row `s`, and not in its request columns. */
  ghost predicate OnlySub(db: Db, db': Db, s: Uuid) {
    && s in db.subs && db' == db.(subs := db'.subs)
    && db'.subs.Keys == db.subs.Keys
    && (forall t | t in db.subs && t != s :: db'.subs[t] == db.subs[t])
    && SameRequest(db.subs[s], db'.subs[s])
    && db.subs[s].attempts <= db'.subs[s].attempts
    && db.subs[s].status != Completed
  }

  lemma OnlySubEvolves(db: Db, db': Db, s: Uuid)
    requires OnlySub(db, db', s)
    ensures Evolves(db, db')
  {
  }

  lemma OnlySubTables(db: Db, db': Db, s: Uuid)
    requires OnlySub(db, db', s) && NilUnused(db) && MatchesOk(db) && ClaimsExact(db)
    ensures NilUnused(db') && MatchesOk(db') && ClaimsExact(db')
  {
  }

  lemma OnlySubUnique(db: Db, db': Db, s: Uuid)
    requires OnlySub(db, db', s) && UniqueRequests(db)
    ensures UniqueRequests(db')
  {
  }

  lemma OnlySubRows(max: nat, db: Db, db': Db, s: Uuid)
    requires OnlySub(db, db', s) && SubsOk(max, db) && SubOk(db, max, db'.subs[s])
    ensures SubsOk(max, db')
  {
  }

  /** Everything but the standings survives rewriting one unfinished row. */
  lemma OnlySubKeeps(max: nat, db: Db, db': Db, s: Uuid)
    requires OnlySub(db, db', s) && DbInv(max, db) && SubOk(db, max, db'.subs[s])
    ensures Evolves(db, db')
    ensures NilUnused(db') && MatchesOk(db') && SubsOk(max, db') && ClaimsExact(db') && UniqueRequests(db')
  {
    OnlySubEvolves(db, db', s);
    OnlySubTables(db, db', s);
    OnlySubUnique(db, db', s);
    OnlySubRows(max, db, db', s);
  }

  lemma OpenSubStandings(db: Db, db': Db, s: Uuid)
    requires OnlySub(db, db', s) && StandingsOk(db) && db'.subs[s].status != Completed && db'.subs[s].verdict.None?
    ensures StandingsOk(db')
  {
    forall m | m in db'.matches ensures Standing(db', m) {
      assert Standing(db, m);
      StandingFrame(db, db', m);
    }
  }

  lemma OtherStandings(db: Db, db': Db, s: Uuid, m: Uuid)
    requires OnlySub(db, db', s) && m in db.matches && Standing(db, m) && db.subs[s].matchId != m
    ensures Standing(db', m)
  {
    StandingFrame(db, db', m);
  }

  /** Rewriting an unfinished row to an unfinished row. */
  lemma UpdateOpenSub(max: nat, db: Db, s: Uuid, row: Submission)
    requires DbInv(max, db) && s in db.subs
    requires SameRequest(db.subs[s], row) && SubOk(db, max, row)
    requires db.subs[s].status != Completed && row.status != Completed
    requires db.subs[s].attempts <= row.attempts
    ensures DbInv(max, WithSub(db, s, row)) && Evolves(db, WithSub(db, s, row))
  {
    var db' := WithSub(db, s, row);
    OnlySubKeeps(max, db, db', s);
    OpenSubStandings(db, db', s);
  }

  /** Completing a row without touching its match: allowed for anything but a
      pass in a match that is still active. */
  lemma CompleteSub(max: nat, db: Db, s: Uuid, row: Submission)
    requires DbInv(max, db) && s in db.subs
    requires SameRequest(db.subs[s], row) && SubOk(db, max, row)
    requires db.subs[s].status != Completed && row.status == Completed
    requires db.subs[s].attempts <= row.attempts
    ensures Evolves(db, WithSub(db, s, row))
    ensures NilUnused(WithSub(db, s, row)) && MatchesOk(WithSub(db, s, row)) && SubsOk(max, WithSub(db, s, row))
    ensures ClaimsExact(WithSub(db, s, row)) && UniqueRequests(WithSub(db, s, row))
    ensures forall m | m in db.matches && m != row.matchId :: Standing(WithSub(db, s, row), m)
    ensures !(db.matches[row.matchId].status == Active && row.verdict == Some(VPass))
            ==> Standing(WithSub(db, s, row), row.matchId)
  {
    hide WithSub, DbInv, Evolves, StandingsOk, SubsOk, SubOk, ClaimsExact, UniqueRequests, NilUnused, OnlySub;
    var db' := WithSub(db, s, row);
    CompleteParts(max, db, s, row);
    OnlySubKeeps(max, db, db', s);
    forall m | m in db.matches && m != row.matchId ensures Standing(db', m) {
      OtherStandings(db, db', s, m);
    }
    CompleteInMatch(max, db, s, row);
  }

  lemma CompleteParts(max: nat, db: Db, s: Uuid, row: Submission)
    requires DbInv(max, db) && s in db.subs && SameRequest(db.subs[s], row) && db.subs[s].attempts <= row.attempts
    requires db.subs[s].status != Completed && row.status == Completed
    ensures OnlySub(db, WithSub(db, s, row), s) && WithSub(db, s, row).subs[s] == row
    ensures StandingsOk(db) && MatchesOk(db) && SubsOk(max, db) && row.matchId in db.matches
    ensures forall m | m in db.matches :: Standing(db, m)
  {
    hide ClaimsExact, UniqueRequests, NilUnused, Standing;
    assert SubOk(db, max, db.subs[s]);
  }

  lemma CompleteInMatch(max: nat, db: Db, s: Uuid, row: Submission)
    requires StandingsOk(db) && MatchesOk(db) && s in db.subs && SubsOk(max, WithSub(db, s, row))
    requires row.matchId in db.matches && SameRequest(db.subs[s], row)
    requires db.subs[s].status != Completed && row.status == Completed
    ensures !(db.matches[row.matchId].status == Active && row.verdict == Some(VPass))
            ==> Standing(WithSub(db, s, row), row.matchId)
  {
    var db', m := WithSub(db, s, row), row.matchId;
    assert Standing(db, m) && !AllCompleted(db, m);
    if db.matches[m].status == Finished {
      var w := db.matches[m].winner.value;
      forall x | x in Scores(db, m, w) ensures x in Scores(db', m, w) {
        if x != 0 {
          var t :| t in db.subs && db.subs[t].matchId == m && db.subs[t].player == w
                   && db.subs[t].status == Completed && db.subs[t].passed == x;
          assert db'.subs[t] == db.subs[t];
        }
      }
      assert Best(db, m, w) in Scores(db', m, w);
      forall p | p in db.matches[m].players ensures Best(db', m, p) <= Best(db', m, w) {
        BestBound(max, db', m, p);
      }
      BestBound(max, db', m, w);
    }
  }

  lemma ClaimsAfterFinish(db: Db, m: Uuid, winner: Option<Uuid>)
    requires m in db.matches && ClaimsExact(db)
    ensures ClaimsExact(FinishMatch(db, m, winner))
  {
  }

  lemma FinishedStanding(db: Db, m: Uuid, winner: Option<Uuid>, n: Uuid)
    requires m in db.matches && n in db.matches
    requires n != m ==> Standing(db, n)
    requires n == m && winner.Some? ==> Unbeaten(db, m, winner.value)
    requires n == m && winner.Some? ==> AllCompleted(db, m) || Best(db, m, winner.value) == TotalTests(db, m)
    requires n == m && winner.None? ==> AllCompleted(db, m) && EvenScores(db, m) && NoPass(db, m)
    ensures Standing(FinishMatch(db, m, winner), n)
  {
    var db' := FinishMatch(db, m, winner);
    forall p ensures Best(db', n, p) == Best(db, n, p) { BestFrame(db, db', n, p); }
  }

  lemma FinishEvolves(db: Db, m: Uuid, winner: Option<Uuid>)
    requires m in db.matches && db.matches[m].status == Active
    ensures Evolves(db, FinishMatch(db, m, winner))
  {
  }

  lemma FinishTables(max: nat, db: Db, m: Uuid, winner: Option<Uuid>)
    requires m in db.matches && NilUnused(db) && MatchesOk(db) && SubsOk(max, db) && UniqueRequests(db)
    requires winner.Some? ==> winner.value in db.matches[m].players
    ensures var db' := FinishMatch(db, m, winner);
      NilUnused(db') && MatchesOk(db') && SubsOk(max, db') && UniqueRequests(db')
  {
  }

  /** Finishing an active match is safe once the winner's best is unbeaten for good. */
  lemma FinishKeepsInv(max: nat, db: Db, m: Uuid, winner: Option<Uuid>)
    requires m in db.matches && db.matches[m].status == Active
    requires NilUnused(db) && MatchesOk(db) && SubsOk(max, db) && ClaimsExact(db) && UniqueRequests(db)
    requires forall n | n in db.matches && n != m :: Standing(db, n)
    requires winner.Some? ==> winner.value in db.matches[m].players && Unbeaten(db, m, winner.value)
    requires winner.Some? ==> AllCompleted(db, m) || Best(db, m, winner.value) == TotalTests(db, m)
    requires winner.None? ==> AllCompleted(db, m) && EvenScores(db, m) && NoPass(db, m)
    ensures DbInv(max, FinishMatch(db, m, winner)) && Evolves(db, FinishMatch(db, m, winner))
  {
    var db' := FinishMatch(db, m, winner);
    FinishEvolves(db, m, winner);
    FinishTables(max, db, m, winner);
    ClaimsAfterFinish(db, m, winner);
    forall n | n in db'.matches ensures Standing(db', n) {
      FinishedStanding(db, m, winner, n);
    }
  }
}
