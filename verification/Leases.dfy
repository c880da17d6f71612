// internal/reaper/leases.go: expired attempts go back to pending, or are
// completed as failed once their attempts are used up.
module Leases {
  import opened Base
  import opened Rows
  import opened RowUpdates

  predicate Expired(row: Submission, now: nat) {
    row.status == Running && (row.lease.None? || row.lease.value <= now)
  }

  function Reclaimed(row: Submission, max: nat, now: nat): Submission {
    if row.attempts < max then
      row.(status := Pending, token := None, lease := None, enqueued := None)
    else
      row.(status := Completed, verdict := Some(VFailed), failure := Some(InfrastructureError),
           token := None, lease := None, finishedAt := Some(now))
  }

  function ReclaimRow(db: Db, s: Uuid, max: nat, now: nat): Db {
    if s in db.subs && Expired(db.subs[s], now) then WithSub(db, s, Reclaimed(db.subs[s], max, now)) else db
  }

  function ReclaimAll(db: Db, ids: seq<Uuid>, max: nat, now: nat): Db
    decreases |ids|
  {
    if ids == [] then db else ReclaimAll(ReclaimRow(db, ids[0], max, now), ids[1..], max, now)
  }

  /** Expired rows not locked by another transaction, by `lease_until NULLS FIRST`. */
  function ExpiredKeys(db: Db, now: nat, locked: set<Uuid>): map<Uuid, nat> {
    map s | s in db.subs && Expired(db.subs[s], now) && s !in locked ::
      if db.subs[s].lease.None? then 0 else db.subs[s].lease.value + 1
  }

  function ReclaimTx(db: Db, max: nat, batch: nat, now: nat, locked: set<Uuid>): Db {
    ReclaimAll(db, Oldest(ExpiredKeys(db, now, locked), batch), max, now)
  }

  lemma ReclaimRowKeeps(max: nat, db: Db, s: Uuid, now: nat)
    requires DbInv(max, db)
    ensures var db' := ReclaimRow(db, s, max, now); DbInv(max, db') && Evolves(db, db')
  {
    if s in db.subs && Expired(db.subs[s], now) {
      assert SubOk(db, max, db.subs[s]);
      var row := Reclaimed(db.subs[s], max, now);
      hide DbInv, Evolves;
      if row.status == Pending {
        UpdateOpenSub(max, db, s, row);
      } else {
        PoisonKeeps(max, db, s, now);
      }
    } else {
      EvolvesReflexive(db);
    }
  }

  lemma PoisonKeeps(max: nat, db: Db, s: Uuid, now: nat)
    requires DbInv(max, db) && s in db.subs && Expired(db.subs[s], now) && db.subs[s].attempts >= max
    ensures var db' := WithSub(db, s, Reclaimed(db.subs[s], max, now)); DbInv(max, db') && Evolves(db, db')
  {
    assert SubOk(db, max, db.subs[s]);
    CompleteSub(max, db, s, Reclaimed(db.subs[s], max, now));
  }

  lemma {:induction false} ReclaimAllKeeps(max: nat, db: Db, ids: seq<Uuid>, now: nat)
    requires DbInv(max, db)
    ensures var db' := ReclaimAll(db, ids, max, now); DbInv(max, db') && Evolves(db, db')
    decreases |ids|
  {
    hide DbInv, Evolves;
    if ids == [] {
      EvolvesReflexive(db);
    } else {
      var mid := ReclaimRow(db, ids[0], max, now);
      ReclaimRowKeeps(max, db, ids[0], now);
      ReclaimAllKeeps(max, mid, ids[1..], now);
      EvolvesTransitive(db, mid, ReclaimAll(db, ids, max, now));
    }
  }

  /** The statement rewrites the rows of its page, each once, and nothing else. */
  lemma {:induction false} ReclaimAllMeaning(db: Db, ids: seq<Uuid>, max: nat, now: nat)
    requires NoDuplicates(ids)
    requires forall i | 0 <= i < |ids| :: ids[i] in db.subs && Expired(db.subs[ids[i]], now)
    ensures var db' := ReclaimAll(db, ids, max, now);
      && db' == db.(subs := db'.subs) && db'.subs.Keys == db.subs.Keys
      && (forall s | s in db.subs :: db'.subs[s] == if s in ids then Reclaimed(db.subs[s], max, now) else db.subs[s])
    decreases |ids|
  {
    if ids == [] {
    } else {
      var mid := ReclaimRow(db, ids[0], max, now);
      forall i | 0 <= i < |ids[1..]| ensures ids[1..][i] in mid.subs && Expired(mid.subs[ids[1..][i]], now) {
        assert ids[1..][i] == ids[i + 1] && ids[i + 1] != ids[0];
      }
      ReclaimAllMeaning(mid, ids[1..], max, now);
      assert ids == [ids[0]] + ids[1..];
      assert ids[0] !in ids[1..];
    }
  }

  /** Unlocked running rows out of lease that come before `s` by
      `lease_until NULLS FIRST, id`. */
  function OutOfLeaseBefore(db: Db, now: nat, locked: set<Uuid>, s: Uuid): set<Uuid>
    requires s in db.subs
  {
    set t | t in db.subs && t !in locked && db.subs[t].status == Running
            && (db.subs[t].lease == None || db.subs[t].lease.value <= now)
            && (|| (db.subs[t].lease == db.subs[s].lease && t < s)
                || (db.subs[t].lease.None? && db.subs[s].lease.Some?)
                || (db.subs[t].lease.Some? && db.subs[s].lease.Some?
                    && db.subs[t].lease.value < db.subs[s].lease.value))
  }

  /** A reclaim touches a row exactly if it is running, its lease is over, nobody has it
      locked and fewer than `batch` such rows come before it; then an attempt left makes
      it pending, unmarked and free, and none left a failed one. */
  lemma ReclaimMeaning(db: Db, max: nat, batch: nat, now: nat, locked: set<Uuid>)
    ensures var db' := ReclaimTx(db, max, batch, now, locked);
      && db' == db.(subs := db'.subs) && db'.subs.Keys == db.subs.Keys
      && (forall s | s in db.subs :: ReclaimedExactly(db, db', s, max, batch, now, locked))
      && (forall s | s in db.subs
                     && (db.subs[s].status != Running || (db.subs[s].lease.Some? && now < db.subs[s].lease.value)) ::
            db'.subs[s] == db.subs[s])
  {
    hide Oldest, Ahead, OutOfLeaseBefore, ReclaimAll, ReclaimedExactly, Reclaimed;
    var keys := ExpiredKeys(db, now, locked);
    var page := Oldest(keys, batch);
    OldestIsPage(keys, batch);
    ReclaimAllMeaning(db, page, max, now);
    var db' := ReclaimTx(db, max, batch, now, locked);
    forall s | s in db.subs ensures ReclaimedExactly(db, db', s, max, batch, now, locked) {
      if s in keys {
        OnPageIff(keys, batch, s);
        AheadInLease(db, now, locked, s);
      }
      RowReclaimed(db, db', s, max, batch, now, locked);
    }
  }

  lemma AheadInLease(db: Db, now: nat, locked: set<Uuid>, s: Uuid)
    requires s in ExpiredKeys(db, now, locked)
    ensures Ahead(ExpiredKeys(db, now, locked), s) == OutOfLeaseBefore(db, now, locked, s)
  {
  }

  lemma RowReclaimed(db: Db, db': Db, s: Uuid, max: nat, batch: nat, now: nat, locked: set<Uuid>)
    requires s in db.subs && s in db'.subs
    requires db'.subs[s] == if Expired(db.subs[s], now) && s !in locked
                               && |OutOfLeaseBefore(db, now, locked, s)| < batch
                            then Reclaimed(db.subs[s], max, now) else db.subs[s]
    ensures ReclaimedExactly(db, db', s, max, batch, now, locked)
  {
    hide OutOfLeaseBefore;
  }

  ghost predicate ReclaimedExactly(db: Db, db': Db, s: Uuid, max: nat, batch: nat, now: nat, locked: set<Uuid>)
    requires s in db.subs && s in db'.subs
  {
    var row := db.subs[s];
    db'.subs[s] ==
    if row.status == Running && (row.lease.None? || row.lease.value <= now) && s !in locked
       && |OutOfLeaseBefore(db, now, locked, s)| < batch then
      if row.attempts < max then
        row.(status := Pending, token := None, lease := None, enqueued := None)
      else
        row.(status := Completed, verdict := Some(VFailed), failure := Some(InfrastructureError),
             token := None, lease := None, finishedAt := Some(now))
    else row
  }

  /** A reclaim batch takes `min(batch, size)` rows off the expired set for good:
      at an unmoved clock no row becomes expired. */
  lemma ReclaimDrains(db: Db, max: nat, batch: nat, now: nat)
    ensures var page := Oldest(ExpiredKeys(db, now, {}), batch);
      var db' := ReclaimTx(db, max, batch, now, {});
      && ExpiredKeys(db', now, {}) == ExpiredKeys(db, now, {}) - Elements(page)
      && |ExpiredKeys(db', now, {})| == |ExpiredKeys(db, now, {})| - Min(batch, |ExpiredKeys(db, now, {})|)
  {
    var keys := ExpiredKeys(db, now, {});
    var page := Oldest(keys, batch);
    OldestIsPage(keys, batch);
    PageSize(keys, page);
    ReclaimAllMeaning(db, page, max, now);
    LeftExpired(db, ReclaimTx(db, max, batch, now, {}), page, max, now);
  }

  lemma LeftExpired(db: Db, db': Db, page: seq<Uuid>, max: nat, now: nat)
    requires db'.subs.Keys == db.subs.Keys
    requires forall s | s in db.subs ::
               db'.subs[s] == if s in page then Reclaimed(db.subs[s], max, now) else db.subs[s]
    ensures ExpiredKeys(db', now, {}) == ExpiredKeys(db, now, {}) - Elements(page)
  {
  }

  lemma PageSize(keys: map<Uuid, nat>, page: seq<Uuid>)
    requires NoDuplicates(page) && forall i | 0 <= i < |page| :: page[i] in keys
    ensures |keys - Elements(page)| == |keys| - |page|
  {
    ElementsCount(page);
    assert Elements(page) <= keys.Keys;
    assert (keys - Elements(page)).Keys == keys.Keys - Elements(page);
  }
}
