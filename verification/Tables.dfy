// The tables as mutable state. Each method performs the statements of one service
// transaction in order and is proved to do exactly what the transaction function of
// its module says.
module Tables {
  import opened Base
  import opened Rows
  import opened RowUpdates
  import opened Submissions
  import opened JudgeStore
  import MatchEnd
  import MatchCreation
  import Leases
  import Dispatch

  class Database {
    var users: set<Uuid>
    var problems: map<Uuid, Problem>
    var matches: map<Uuid, Match>
    var subs: map<Uuid, Submission>
    var claims: map<Uuid, Uuid>          // active_match_players

    function View(): Db
      reads this
    {
      Db(users, problems, matches, subs, claims)
    }

    constructor (users: set<Uuid>, problems: map<Uuid, Problem>)
      ensures View() == Db(users, problems, map[], map[], map[])
    {
      this.users, this.problems, matches, subs, claims := users, problems, map[], map[], map[];
    }

    // ------------------------------------------------------------------ submissions

    method LookUpRequest(r: Request) returns (found: Found)
      requires UniqueRequests(View())
      ensures found == FindRequest(View(), r)
    {
      if s :| s in subs && HasKey(subs[s], r) {
        assert KeyUsed(View(), r);
        return if SamePayload(subs[s], r) then Existing(s) else Conflicting;
      }
      assert !KeyUsed(View(), r);
      found := Absent;
    }

    /** `Accept`: request check, look-up, gate under the match lock, insert. */
    method Accept(r: Request, now: nat, newId: Uuid) returns (res: AcceptResult)
      requires UniqueRequests(View())
      modifies this`subs
      ensures (View(), res) == AcceptTx(old(View()), r, now, newId)
    {
      if !Submissions.ValidRequest(r) {
        return Refused(InvalidRequest);
      }
      var found := LookUpRequest(r);
      if found.Existing? {
        return Accepted(found.id);
      }
      if found.Conflicting? {
        return Refused(IdempotencyConflict);
      }
      if r.matchId !in matches {
        return Refused(MatchNotFound);
      }
      var game := matches[r.matchId];
      if r.player !in game.players {
        return Refused(NotMatchPlayer);
      }
      if game.status != Active {
        return Refused(MatchNotActive);
      }
      if now >= game.deadline {
        return Refused(DeadlinePassed);
      }
      subs := subs[newId := NewRow(r, now)];
      res := Accepted(newId);
    }

    method MarkEnqueued(s: Uuid, now: nat)
      modifies this`subs
      ensures View() == Dispatch.MarkTx(old(View()), s, now)
    {
      if s in subs && subs[s].status == Pending {
        subs := subs[s := subs[s].(enqueued := Some(now))];
      }
    }

    // ------------------------------------------------------------------------ judge

    /** loadMatchPlayers over the rows of `match_players` in slot order. */
    method LoadMatchPlayers(rows: seq<Uuid>, submitter: Uuid) returns (players: Option<seq<Uuid>>)
      ensures players == LoadPlayers(rows, submitter)
      ensures players == if |rows| == 2 && rows[0] != rows[1] && submitter in rows then Some(rows) else None
    {
      var two := new Uuid[2];
      var count, containsSubmitter := 0, false;
      for i := 0 to |rows|
        invariant count == i <= 2
        invariant forall k | 0 <= k < i :: two[k] == rows[k]
        invariant containsSubmitter <==> submitter in rows[..i]
      {
        if count >= 2 {
          return None;
        }
        two[count] := rows[i];
        containsSubmitter := containsSubmitter || two[count] == submitter;
        count := count + 1;
      }
      assert rows[..|rows|] == rows;
      if count != 2 || !containsSubmitter || two[0] == two[1] {
        return None;
      }
      assert two[..] == rows;
      players := Some(two[..]);
    }

    method Claim(s: Uuid, token: Uuid, lease: nat, now: nat) returns (res: ClaimResult)
      modifies this`subs
      ensures (View(), res) == ClaimTx(old(View()), s, token, lease, now)
    {
      if s == NIL || token == NIL || lease == 0 {
        return ClaimError;
      }
      if s !in subs || subs[s].matchId !in matches || matches[subs[s].matchId].problem !in problems {
        return MissingSubmission;
      }
      var row := subs[s];
      var game := matches[row.matchId];
      if row.status == Running {
        if row.lease.Some? && row.lease.value > now && row.token.Some? {
          return LiveAttempt(row.lease.value);
        }
        return ExpiredAttempt;
      }
      var tests := DecodeTests(problems[game.problem]);
      if row.status == Completed {
        if row.verdict.None? || tests.None? {
          return ClaimError;
        }
        var players := LoadMatchPlayers(game.players, row.player);
        if players.None? {
          return ClaimError;
        }
        return AlreadyCompleted(Record(s, row.matchId, row.player, row.request, players.value, row.verdict.value,
                                       row.failure, row.passed, tests.value, game.winner));
      }
      if tests.None? || !KnownLanguage(row.language) || row.code == "" {
        return ClaimError;
      }
      var players := LoadMatchPlayers(game.players, row.player);
      if players.None? {
        return ClaimError;
      }
      subs := subs[s := Started(row, token, lease, now)];
      res := Acquired(Claimed(s, row.matchId, row.player, game.problem, row.request, row.language, row.code,
                              tests.value, players.value, token));
    }

    /** `UPDATE matches` with its trigger, which deletes the claims of the match. */
    method SetFinished(m: Uuid, winner: Option<Uuid>)
      requires m in matches
      modifies this`matches, this`claims
      ensures View() == FinishMatch(old(View()), m, winner)
    {
      matches := matches[m := matches[m].(status := Finished, winner := winner)];
      claims := map u | u in claims && claims[u] != m :: claims[u];
    }

    /** `Complete`: match lock, submission lock, ownership, result, winner. */
    method Complete(c: Claimed, r: Terminal, now: nat) returns (res: CompleteResult)
      modifies this`subs, this`matches, this`claims
      ensures (View(), res) == CompleteTx(old(View()), c, r, now)
    {
      if !ValidClaimed(c) || !ValidTerminal(r, c.tests) {
        return CompleteError;
      }
      if c.matchId !in matches || c.sub !in subs {
        return CompleteError;
      }
      var game := matches[c.matchId];
      var winner := game.winner;
      if !Owns(subs[c.sub], c) {
        return LostOwnership;
      }
      subs := subs[c.sub := Judged(subs[c.sub], r, now)];
      if r.verdict == VPass && game.status == Active && winner.None? {
        SetFinished(c.matchId, Some(c.player));
        winner := Some(c.player);
      }
      res := Applied(Record(c.sub, c.matchId, c.player, c.request, c.players,
                            r.verdict, r.failure, r.passed, c.tests, winner));
    }

    // ----------------------------------------------------------------------- reaper

    /** `reclaimLeases`: one statement rewrites the page, then the returned rows are
        counted; a poisoned row has used up its attempts. */
    method ReclaimLeases(max: nat, batch: nat, now: nat, locked: set<Uuid>) returns (reset: nat, poisoned: seq<Uuid>)
      modifies this`subs
      ensures View() == Leases.ReclaimTx(old(View()), max, batch, now, locked)
      ensures var page := Oldest(Leases.ExpiredKeys(old(View()), now, locked), batch);
        reset + |poisoned| == |page| && Elements(poisoned) == Spent(old(subs), page, max)
      ensures forall s | s in old(subs)
                         && (old(subs)[s].status != Running
                             || (old(subs)[s].lease.Some? && now < old(subs)[s].lease.value)) ::
          s in subs && subs[s] == old(subs)[s] && s !in poisoned
      ensures forall s | s in poisoned :: s in old(subs) && old(subs)[s].attempts >= max
    {
      hide Oldest, Spent, Leases.Reclaimed, Leases.ExpiredKeys, Leases.ReclaimAll, Leases.ReclaimedExactly;
      ghost var before := View();
      Leases.ReclaimMeaning(before, max, batch, now, locked);
      PageIsExpired(before, batch, now, locked);
      var page := Oldest(Leases.ExpiredKeys(View(), now, locked), batch);
      Leases.ReclaimAllMeaning(View(), page, max, now);
      var rows := subs;
      subs := map s | s in subs :: if s in page then Leases.Reclaimed(subs[s], max, now) else subs[s];
      assert subs == Leases.ReclaimAll(old(View()), page, max, now).subs;
      reset, poisoned := CountActions(rows, page, max);
      SpentRows(before, page, max, now, poisoned);
    }

    method CountActions(rows: map<Uuid, Submission>, page: seq<Uuid>, max: nat)
      returns (reset: nat, poisoned: seq<Uuid>)
      requires forall i | 0 <= i < |page| :: page[i] in rows
      ensures reset + |poisoned| == |page| && Elements(poisoned) == Spent(rows, page, max)
    {
      reset, poisoned := 0, [];
      for i := 0 to |page|
        invariant reset + |poisoned| == i && Elements(poisoned) == Spent(rows, page[..i], max)
      {
        assert page[..i + 1] == page[..i] + [page[i]];
        if rows[page[i]].attempts < max {
          reset := reset + 1;
          assert Spent(rows, page[..i + 1], max) == Spent(rows, page[..i], max);
        } else {
          poisoned := poisoned + [page[i]];
          assert Spent(rows, page[..i + 1], max) == Spent(rows, page[..i], max) + {page[i]};
        }
      }
      assert page[..|page|] == page;
    }

    /** `finalizeMatch` on one selected match. */
    method SettleMatch(m: Uuid) returns (settled: Option<MatchEnd.Settlement>)
      modifies this`matches, this`claims
      ensures (View(), settled) == MatchEnd.FinalizeTx(old(View()), m)
    {
      if m !in matches || MatchEnd.OpenSubs(View(), m) != {} {
        return None;
      }
      var game := matches[m];
      var players := new Uuid[2](_ => NIL);
      var scores := new nat[2](_ => 0);
      var count := 0;
      for i := 0 to |game.players|
        invariant count == i <= 2
        invariant forall k | 0 <= k < i ::
            players[k] == game.players[k] && scores[k] == Best(View(), m, game.players[k])
        invariant View() == old(View())
      {
        if count >= 2 {
          return None;
        }
        players[count], scores[count] := game.players[i], Best(View(), m, game.players[i]);
        count := count + 1;
      }
      if count != 2 || players[0] == NIL || players[1] == NIL || players[0] == players[1] {
        return None;
      }
      assert players[..] == game.players && scores[..] == MatchEnd.BestScores(View(), m);
      var total := TotalTests(View(), m);
      var winner := MatchEnd.DecideTiebreak(players[..], scores[..]);
      if game.status != Active || game.winner.Some? {
        return None;
      }
      SetFinished(m, winner);
      settled := Some(MatchEnd.Settlement(m, players[..], scores[..], total, winner));
    }

    /** `finalizeMatches`: the loop over the selected matches. */
    method SettleMatches(batch: nat, now: nat, locked: set<Uuid>) returns (settled: seq<MatchEnd.Settlement>)
      modifies this`matches, this`claims
      ensures var page := Oldest(MatchEnd.DueKeys(old(View()), now, locked), batch);
        View() == MatchEnd.FinalizeAll(old(View()), page) && settled == MatchEnd.Settlements(old(View()), page)
      ensures forall m | m in old(matches) && now < old(matches)[m].deadline ::
          m in matches && matches[m] == old(matches)[m]
    {
      hide Oldest, MatchEnd.FinalizeTx, MatchEnd.DueKeys;
      var page := Oldest(MatchEnd.DueKeys(View(), now, locked), batch);
      MatchEnd.PageIsDue(View(), batch, now, locked);
      MatchEnd.OnlyChosen(View(), page);
      settled := [];
      for i := 0 to |page|
        invariant MatchEnd.FinalizeAll(View(), page[i..]) == MatchEnd.FinalizeAll(old(View()), page)
        invariant settled + MatchEnd.Settlements(View(), page[i..]) == MatchEnd.Settlements(old(View()), page)
      {
        assert page[i..][1..] == page[i + 1..];
        var one := SettleMatch(page[i]);
        if one.Some? {
          settled := settled + [one.value];
        }
      }
      assert page[|page|..] == [];
    }

    // --------------------------------------------------------------- match creation

    /** Inserting a `match_players` row, with the trigger that claims the user. */
    method InsertPlayer(m: Uuid, user: Uuid) returns (ok: bool)
      requires m in matches
      modifies this`matches, this`claims
      ensures ok <==> MatchCreation.InsertPlayer(old(View()), m, user).Some?
      ensures View() == if ok then MatchCreation.InsertPlayer(old(View()), m, user).value else old(View())
    {
      if matches[m].status == Active {
        if user in claims {
          return false;
        }
        claims := claims[user := m];
      }
      matches := matches[m := matches[m].(players := matches[m].players + [user])];
      ok := true;
    }

    /** `createMatch`: ordered user locks, claims, problem, match, two players. */
    method CreateMatch(a: Uuid, b: Uuid, duration: nat, now: nat, newId: Uuid) returns (res: MatchCreation.CreateResult)
      modifies this`matches, this`claims
      ensures (View(), res) == MatchCreation.CreateTx(old(View()), a, b, duration, now, newId)
    {
      if duration == 0 || a == NIL || b == NIL || a == b {
        return MatchCreation.CreateError;
      }
      var ids := MatchCreation.OrderedPair(a, b);
      var missing := LockUsers(ids);
      var active := LoadActiveClaims(ids);
      if missing != [] || active != [] {
        return MatchCreation.Ineligible(missing, active);
      }
      MatchCreation.PairLookups(View(), a, b);
      var problem := Oldest(MatchCreation.ProblemKeys(View()), 1);
      if problem == [] {
        return MatchCreation.CreateError;
      }
      hide MatchCreation.OrderedPair, MatchCreation.MissingOf, MatchCreation.ClaimsOf, Oldest;
      matches := matches[newId := Match(problem[0], Active, None, now + duration, [])];
      SeatPlayers(newId, a, b);
      res := MatchCreation.Created(newId, problem[0], now + duration);
    }

    /** `SELECT ... FOR UPDATE` on each user; who has no row is missing. */
    method LockUsers(ids: seq<Uuid>) returns (missing: seq<Uuid>)
      ensures missing == MatchCreation.MissingOf(users, ids)
    {
      missing := [];
      for i := 0 to |ids|
        invariant missing + MatchCreation.MissingOf(users, ids[i..]) == MatchCreation.MissingOf(users, ids)
      {
        assert ids[i..][1..] == ids[i + 1..];
        if ids[i] !in users {
          missing := missing + [ids[i]];
        }
      }
      assert ids[|ids|..] == [];
    }

    /** The two inserts into `match_players`. */
    method SeatPlayers(m: Uuid, a: Uuid, b: Uuid)
      requires m in matches && a != b && a !in claims && b !in claims
      modifies this`matches, this`claims
      ensures var first := MatchCreation.InsertPlayer(old(View()), m, a);
        first.Some? && m in first.value.matches && MatchCreation.InsertPlayer(first.value, m, b) == Some(View())
    {
      ghost var start := View();
      var players := [a, b];
      for i := 0 to 2
        invariant i == 0 ==> View() == start
        invariant i >= 1 ==> MatchCreation.InsertPlayer(start, m, a).Some?
        invariant i >= 1 ==> m in MatchCreation.InsertPlayer(start, m, a).value.matches
        invariant i == 1 ==> MatchCreation.InsertPlayer(start, m, a) == Some(View())
        invariant i == 2
            ==> MatchCreation.InsertPlayer(MatchCreation.InsertPlayer(start, m, a).value, m, b) == Some(View())
      {
        var ok := InsertPlayer(m, players[i]);
        if !ok {
          assert false;      // neither user has a claim, so the primary key cannot be violated
        }
      }
    }

    /** loadActiveMatchClaims over users in ascending order. */
    method LoadActiveClaims(ids: seq<Uuid>) returns (found: seq<(Uuid, Uuid)>)
      ensures found == MatchCreation.ClaimsOf(claims, ids)
    {
      found := [];
      for i := 0 to |ids|
        invariant found + MatchCreation.ClaimsOf(claims, ids[i..]) == MatchCreation.ClaimsOf(claims, ids)
      {
        assert ids[i..][1..] == ids[i + 1..];
        if ids[i] in claims {
          found := found + [(ids[i], claims[ids[i]])];
        }
      }
      assert MatchCreation.ClaimsOf(claims, ids[|ids|..]) == [];
    }
  }

  /** The rows of a page that have no attempt left. */
  function Spent(rows: map<Uuid, Submission>, page: seq<Uuid>, max: nat): set<Uuid> {
    set s | s in page && s in rows && rows[s].attempts >= max
  }

  /** The page of a reclaim holds running rows out of lease, none twice. */
  lemma PageIsExpired(db: Db, batch: nat, now: nat, locked: set<Uuid>)
    ensures var page := Oldest(Leases.ExpiredKeys(db, now, locked), batch);
      NoDuplicates(page) && forall i | 0 <= i < |page| :: page[i] in db.subs && Leases.Expired(db.subs[page[i]], now)
  {
    OldestIsPage(Leases.ExpiredKeys(db, now, locked), batch);
    hide Oldest;
  }

  lemma SpentRows(db: Db, page: seq<Uuid>, max: nat, now: nat, poisoned: seq<Uuid>)
    requires forall i | 0 <= i < |page| :: page[i] in db.subs && Leases.Expired(db.subs[page[i]], now)
    requires Elements(poisoned) == Spent(db.subs, page, max)
    ensures forall s | s in poisoned ::
        && s in db.subs && db.subs[s].attempts >= max && db.subs[s].status == Running
        && (db.subs[s].lease.None? || db.subs[s].lease.value <= now)
  {
    forall s | s in poisoned ensures s in page && s in db.subs && db.subs[s].attempts >= max {
      assert s in Elements(poisoned);
    }
  }
}
