// internal/match/create.go with the triggers of 000007_active_match_claims.up.sql:
// a match, its two players and their active claims are written together.
module MatchCreation {
  import opened Base
  import opened Rows

  datatype CreateResult =
    | Created(id: Uuid, problem: Uuid, deadline: nat)
    | Ineligible(missing: seq<Uuid>, claims: seq<(Uuid, Uuid)>)
    | CreateError

  /** The order in which user rows are locked. */
  function OrderedPair(a: Uuid, b: Uuid): seq<Uuid> {
    if b < a then [b, a] else [a, b]
  }

  function MissingOf(users: set<Uuid>, ids: seq<Uuid>): seq<Uuid> {
    if ids == [] then []
    else (if ids[0] in users then [] else [ids[0]]) + MissingOf(users, ids[1..])
  }

  /** loadActiveMatchClaims over an ordered list of users. */
  function ClaimsOf(claims: map<Uuid, Uuid>, ids: seq<Uuid>): seq<(Uuid, Uuid)> {
    if ids == [] then []
    else (if ids[0] in claims then [(ids[0], claims[ids[0]])] else []) + ClaimsOf(claims, ids[1..])
  }

  function ProblemKeys(db: Db): map<Uuid, nat> {
    map p | p in db.problems :: db.problems[p].created
  }

  /** Inserting one `match_players` row fires `claim_active_match_player`; `None`
      is the primary-key violation that rolls the transaction back. */
  function InsertPlayer(db: Db, m: Uuid, user: Uuid): Option<Db>
    requires m in db.matches
  {
    var seated := db.(matches := db.matches[m := db.matches[m].(players := db.matches[m].players + [user])]);
    if db.matches[m].status != Active then Some(seated)
    else if user in db.claims then None
    else Some(seated.(claims := seated.claims[user := m]))
  }

  function CreateTx(db: Db, a: Uuid, b: Uuid, duration: nat, now: nat, newId: Uuid): (Db, CreateResult) {
    if duration == 0 || a == NIL || b == NIL || a == b then (db, CreateError)
    else
      var ids := OrderedPair(a, b);
      var missing, claims := MissingOf(db.users, ids), ClaimsOf(db.claims, ids);
      if missing != [] || claims != [] then (db, Ineligible(missing, claims))
      else
        var problem := Oldest(ProblemKeys(db), 1);
        if problem == [] then (db, CreateError)
        else
          var game := Match(problem[0], Active, None, now + duration, []);
          var opened' := db.(matches := db.matches[newId := game]);
          match InsertPlayer(opened', newId, a)
          case None => (db, CreateError)
          case Some(first) =>
            match InsertPlayer(first, newId, b)
            case None => (db, CreateError)
            case Some(second) => (second, Created(newId, problem[0], now + duration))
  }

  /** The tables after a successful creation, written in one step. */
  function Opened(db: Db, a: Uuid, b: Uuid, problem: Uuid, deadline: nat, m: Uuid): Db {
    db.(matches := db.matches[m := Match(problem, Active, None, deadline, [a, b])],
        claims := db.claims[a := m][b := m])
  }

  /** The answer names the new match as it is stored: active until its deadline, the two
      players in their order, each claimed for it, and nothing else changed. */
  ghost predicate Announced(db: Db, db': Db, a: Uuid, b: Uuid, deadline: nat, newId: Uuid, res: CreateResult)
    requires res.Created?
  {
    && res.id == newId && res.deadline == deadline
    && db'.matches == db.matches[res.id := Match(res.problem, Active, None, res.deadline, [a, b])]
    && db'.claims == db.claims[a := res.id][b := res.id]
    && db'.subs == db.subs && db'.users == db.users && db'.problems == db.problems
  }

  /** Creation succeeds exactly when both users exist, neither has an active
      match, they differ and a problem exists; the checks made before the insert
      rule out the trigger's primary-key violation. Otherwise nothing is written
      and the error names exactly the players who are missing or claimed. */
  lemma CreateMeaning(db: Db, a: Uuid, b: Uuid, duration: nat, now: nat, newId: Uuid)
    requires newId !in db.matches
    ensures var (db', res) := CreateTx(db, a, b, duration, now, newId);
      && (res.Created? <==> duration > 0 && a != NIL && b != NIL && a != b && {a, b} <= db.users
                            && a !in db.claims && b !in db.claims && db.problems != map[])
      && (res.Created? ==> res.problem in db.problems && db' == Opened(db, a, b, res.problem, now + duration, newId))
      && (res.Created? ==> Announced(db, db', a, b, now + duration, newId, res))
      && (res.Created? ==> forall p | p in db.problems ::
            || db.problems[res.problem].created < db.problems[p].created
            || (db.problems[res.problem].created == db.problems[p].created && res.problem <= p))
      && (!res.Created? ==> db' == db)
      && (res.Ineligible? ==>
            (&& (forall u :: u in res.missing <==> u in {a, b} && u !in db.users)
             && (forall u, m :: (u, m) in res.claims <==> u in {a, b} && u in db.claims && db.claims[u] == m)))
  {
    PairLookups(db, a, b);
    OldestProblem(db);
    hide MissingOf, ClaimsOf, OrderedPair, Oldest, ProblemKeys;
    if CreateTx(db, a, b, duration, now, newId).1.Created? {
      assert [] + [a] + [b] == [a, b];
    }
  }

  lemma PairLookups(db: Db, a: Uuid, b: Uuid)
    ensures var missing := MissingOf(db.users, OrderedPair(a, b));
      forall u :: u in missing <==> u in {a, b} && u !in db.users
    ensures var claims := ClaimsOf(db.claims, OrderedPair(a, b));
      forall u, m :: (u, m) in claims <==> u in {a, b} && u in db.claims && db.claims[u] == m
    ensures MissingOf(db.users, OrderedPair(a, b)) == [] <==> {a, b} <= db.users
    ensures ClaimsOf(db.claims, OrderedPair(a, b)) == [] <==> a !in db.claims && b !in db.claims
  {
    var ids := OrderedPair(a, b);
    assert ids[1..] == [ids[1]] && ids[1..][1..] == [];
    assert MissingOf(db.users, ids[1..]) == if ids[1] in db.users then [] else [ids[1]];
    assert ClaimsOf(db.claims, ids[1..]) == if ids[1] in db.claims then [(ids[1], db.claims[ids[1]])] else [];
  }

  lemma OldestProblem(db: Db)
    ensures var page := Oldest(ProblemKeys(db), 1);
      if db.problems == map[] then page == []
      else
        && |page| == 1 && page[0] in db.problems
        && forall p | p in db.problems ::
             || db.problems[page[0]].created < db.problems[p].created
             || (db.problems[page[0]].created == db.problems[p].created && page[0] <= p)
  {
    if db.problems != map[] {
      var keys := ProblemKeys(db);
      var p :| p in db.problems;
      assert p in keys;
      var first := Least(keys);
      assert Oldest(keys, 1) == [first];
      forall p | p in db.problems ensures Before(keys, first, p) {}
    }
  }

  lemma OpenedClaims(db: Db, a: Uuid, b: Uuid, problem: Uuid, deadline: nat, m: Uuid)
    requires ClaimsExact(db) && m !in db.matches && a !in db.claims && b !in db.claims && a != b
    ensures ClaimsExact(Opened(db, a, b, problem, deadline, m))
  {
  }

  lemma OpenedRows(max: nat, db: Db, a: Uuid, b: Uuid, problem: Uuid, deadline: nat, m: Uuid)
    requires MatchesOk(db) && SubsOk(max, db) && m !in db.matches && problem in db.problems
    requires a != b && a != NIL && b != NIL && a in db.users && b in db.users
    ensures MatchesOk(Opened(db, a, b, problem, deadline, m)) && SubsOk(max, Opened(db, a, b, problem, deadline, m))
  {
  }

  lemma OpenedStandings(max: nat, db: Db, a: Uuid, b: Uuid, problem: Uuid, deadline: nat, m: Uuid)
    requires StandingsOk(db) && SubsOk(max, db) && m !in db.matches
    ensures StandingsOk(Opened(db, a, b, problem, deadline, m))
  {
    var db' := Opened(db, a, b, problem, deadline, m);
    forall s | s in db.subs ensures db.subs[s].matchId != m { assert SubOk(db, max, db.subs[s]); }
    forall n | n in db'.matches ensures Standing(db', n) {
      if n != m {
        assert Standing(db, n);
        StandingFrame(db, db', n);
      }
    }
  }

  lemma OpenedEvolves(db: Db, a: Uuid, b: Uuid, problem: Uuid, deadline: nat, m: Uuid)
    requires m !in db.matches
    ensures Evolves(db, Opened(db, a, b, problem, deadline, m))
  {
  }

  lemma OpenedKeeps(max: nat, db: Db, a: Uuid, b: Uuid, problem: Uuid, deadline: nat, m: Uuid)
    requires DbInv(max, db) && m != NIL && m !in db.matches && problem in db.problems
    requires a != b && a != NIL && b != NIL && {a, b} <= db.users && a !in db.claims && b !in db.claims
    ensures var db' := Opened(db, a, b, problem, deadline, m); DbInv(max, db') && Evolves(db, db')
  {
    OpenedClaims(db, a, b, problem, deadline, m);
    OpenedRows(max, db, a, b, problem, deadline, m);
    OpenedStandings(max, db, a, b, problem, deadline, m);
    OpenedEvolves(db, a, b, problem, deadline, m);
  }

  lemma CreateKeeps(max: nat, db: Db, a: Uuid, b: Uuid, duration: nat, now: nat, newId: Uuid)
    requires DbInv(max, db) && newId != NIL && newId !in db.matches
    ensures var db' := CreateTx(db, a, b, duration, now, newId).0; DbInv(max, db') && Evolves(db, db')
  {
    hide DbInv, Evolves, CreateTx, Opened;
    var (db', res) := CreateTx(db, a, b, duration, now, newId);
    CreateMeaning(db, a, b, duration, now, newId);
    if res.Created? {
      OpenedKeeps(max, db, a, b, res.problem, now + duration, newId);
    } else {
      EvolvesReflexive(db);
    }
  }
}
