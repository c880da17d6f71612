// internal/submission/service.go: idempotent admission of a submission.
module Submissions {
  import opened Base
  import opened Rows
  import opened RowUpdates

  datatype Request = Request(player: Uuid, matchId: Uuid, id: Uuid, language: string, code: string)

  datatype AcceptError =
    | InvalidRequest | MatchNotFound | NotMatchPlayer | MatchNotActive | DeadlinePassed | IdempotencyConflict

  datatype AcceptResult = Accepted(id: Uuid) | Refused(error: AcceptError)

  datatype Found = Absent | Conflicting | Existing(id: Uuid)

  predicate ValidRequest(r: Request) {
    r.player != NIL && r.matchId != NIL && r.id != NIL && r.code != "" && KnownLanguage(r.language)
  }

  predicate HasKey(row: Submission, r: Request) {
    row.player == r.player && row.request == r.id
  }

  predicate SamePayload(row: Submission, r: Request) {
    row.matchId == r.matchId && row.language == r.language && row.code == r.code
  }

  ghost predicate KeyUsed(db: Db, r: Request) {
    exists s :: s in db.subs && HasKey(db.subs[s], r)
  }

  ghost function FindRequest(db: Db, r: Request): Found {
    if KeyUsed(db, r) then
      var s :| s in db.subs && HasKey(db.subs[s], r);
      if SamePayload(db.subs[s], r) then Existing(s) else Conflicting
    else Absent
  }

  /** The checks made once the match row is locked; `None` lets the insert go ahead. */
  function Gate(db: Db, r: Request, now: nat): Option<AcceptError> {
    if r.matchId !in db.matches then Some(MatchNotFound)
    else if r.player !in db.matches[r.matchId].players then Some(NotMatchPlayer)
    else if db.matches[r.matchId].status != Active then Some(MatchNotActive)
    else if !(now < db.matches[r.matchId].deadline) then Some(DeadlinePassed)
    else None
  }

  function NewRow(r: Request, now: nat): Submission {
    Submission(r.matchId, r.player, r.id, r.language, r.code, now,
               Pending, 0, None, None, None, None, None, 0, None)
  }

  /** `Accept` as one transaction; `newId` is the id the database generates. */
  ghost function AcceptTx(db: Db, r: Request, now: nat, newId: Uuid): (Db, AcceptResult) {
    if !ValidRequest(r) then (db, Refused(InvalidRequest))
    else match FindRequest(db, r)
      case Existing(id) => (db, Accepted(id))
      case Conflicting => (db, Refused(IdempotencyConflict))
      case Absent =>
        match Gate(db, r, now)
        case Some(e) => (db, Refused(e))
        case None => (WithSub(db, newId, NewRow(r, now)), Accepted(newId))
  }

  /** What admission promises: success names a row of exactly this request, a
      refusal writes nothing, a used key never writes, and a row with another
      payload is refused as a conflict. */
  lemma AcceptMeaning(db: Db, r: Request, now: nat, newId: Uuid)
    requires UniqueRequests(db) && newId !in db.subs
    ensures var (db', res) := AcceptTx(db, r, now, newId);
      && (res.Accepted? ==> res.id in db'.subs && HasKey(db'.subs[res.id], r) && SamePayload(db'.subs[res.id], r))
      && (res.Refused? || KeyUsed(db, r) ==> db' == db)
      && (forall s | s in db.subs && HasKey(db.subs[s], r) && ValidRequest(r) ::
            res == if SamePayload(db.subs[s], r) then Accepted(s) else Refused(IdempotencyConflict))
      && (db' != db ==> db'.subs.Keys == db.subs.Keys + {newId} && res == Accepted(newId) && Gate(db, r, now).None?)
      && (db' != db ==> db' == db.(subs := db.subs[newId := db'.subs[newId]]) && Fresh(db'.subs[newId], r, now))
      && (res == Refused(InvalidRequest)
          <==> r.player == NIL || r.matchId == NIL || r.id == NIL || r.code == ""
               || r.language !in {"python", "cpp", "java"})
  {
  }

  /** A row of exactly this request that nobody has enqueued, claimed or judged yet. */
  ghost predicate Fresh(row: Submission, r: Request, now: nat) {
    && row.matchId == r.matchId && row.player == r.player && row.request == r.id
    && row.language == r.language && row.code == r.code && row.created == now
    && row.status == Pending && row.attempts == 0 && row.token == None && row.lease == None && row.enqueued == None
    && row.verdict == None && row.failure == None && row.passed == 0 && row.finishedAt == None
  }

  /** Every first answer to a valid request is given exactly in its own case. */
  lemma AnswersExactly(db: Db, r: Request, now: nat, newId: Uuid)
    requires ValidRequest(r) && !KeyUsed(db, r)
    ensures var res := AcceptTx(db, r, now, newId).1;
      var found := r.matchId in db.matches;
      var plays := found && r.player in db.matches[r.matchId].players;
      var open := plays && db.matches[r.matchId].status == Active;
      && (res == Refused(MatchNotFound) <==> !found)
      && (res == Refused(NotMatchPlayer) <==> found && !plays)
      && (res == Refused(MatchNotActive) <==> plays && !open)
      && (res == Refused(DeadlinePassed) <==> open && db.matches[r.matchId].deadline <= now)
      && (res == Accepted(newId) <==> open && now < db.matches[r.matchId].deadline)
  {
  }

  lemma InsertUnique(db: Db, r: Request, now: nat, newId: Uuid)
    requires UniqueRequests(db) && newId !in db.subs && !KeyUsed(db, r)
    ensures UniqueRequests(WithSub(db, newId, NewRow(r, now)))
  {
  }

  lemma InsertRows(max: nat, db: Db, r: Request, now: nat, newId: Uuid)
    requires SubsOk(max, db) && 0 < max && newId !in db.subs && ValidRequest(r) && Gate(db, r, now).None?
    ensures SubsOk(max, WithSub(db, newId, NewRow(r, now)))
  {
    var db' := WithSub(db, newId, NewRow(r, now));
    forall t | t in db'.subs ensures SubOk(db', max, db'.subs[t]) {
      if t != newId { assert SubOk(db, max, db.subs[t]); }
    }
  }

  lemma InsertStandings(db: Db, r: Request, now: nat, newId: Uuid)
    requires StandingsOk(db) && newId !in db.subs && Gate(db, r, now).None?
    ensures StandingsOk(WithSub(db, newId, NewRow(r, now)))
  {
    var db' := WithSub(db, newId, NewRow(r, now));
    forall m | m in db'.matches ensures Standing(db', m) {
      assert Standing(db, m);
      StandingFrame(db, db', m);
    }
  }

  lemma InsertEvolves(db: Db, r: Request, now: nat, newId: Uuid)
    requires newId !in db.subs && Gate(db, r, now).None?
    ensures Evolves(db, WithSub(db, newId, NewRow(r, now)))
  {
  }

  lemma InsertTables(db: Db, r: Request, now: nat, newId: Uuid)
    requires NilUnused(db) && MatchesOk(db) && ClaimsExact(db) && newId != NIL
    ensures var db' := WithSub(db, newId, NewRow(r, now)); NilUnused(db') && MatchesOk(db') && ClaimsExact(db')
  {
  }

  lemma InsertKeeps(max: nat, db: Db, r: Request, now: nat, newId: Uuid)
    requires DbInv(max, db) && 0 < max && newId != NIL && newId !in db.subs
    requires ValidRequest(r) && !KeyUsed(db, r) && Gate(db, r, now).None?
    ensures DbInv(max, WithSub(db, newId, NewRow(r, now))) && Evolves(db, WithSub(db, newId, NewRow(r, now)))
  {
    InsertEvolves(db, r, now, newId);
    InsertTables(db, r, now, newId);
    InsertUnique(db, r, now, newId);
    InsertRows(max, db, r, now, newId);
    InsertStandings(db, r, now, newId);
  }

  lemma AcceptKeeps(max: nat, db: Db, r: Request, now: nat, newId: Uuid)
    requires DbInv(max, db) && 0 < max && newId != NIL && newId !in db.subs
    ensures DbInv(max, AcceptTx(db, r, now, newId).0) && Evolves(db, AcceptTx(db, r, now, newId).0)
  {
    hide DbInv, Evolves;
    if ValidRequest(r) && !KeyUsed(db, r) && Gate(db, r, now).None? {
      InsertKeeps(max, db, r, now, newId);
    } else {
      EvolvesReflexive(db);
    }
  }
}
