// internal/submission/dispatch.go: which pending rows are due and how a dispatch
// round marks them. The row is marked only after its job is in the stream.
module Dispatch {
  import opened Base
  import opened Rows
  import opened RowUpdates
  import Leases

  function MarkTx(db: Db, s: Uuid, now: nat): Db {
    if s in db.subs && db.subs[s].status == Pending then
      WithSub(db, s, db.subs[s].(enqueued := Some(now)))
    else db
  }

  predicate Due(row: Submission, now: nat, stale: nat) {
    row.status == Pending && (row.enqueued.None? || row.enqueued.value + stale <= now)
  }

  function DueKeys(db: Db, now: nat, stale: nat, locked: set<Uuid>): map<Uuid, nat> {
    map s | s in db.subs && Due(db.subs[s], now, stale) && s !in locked :: db.subs[s].created
  }

  function MarkAll(db: Db, ids: seq<Uuid>, now: nat): Db
    decreases |ids|
  {
    if ids == [] then db else MarkAll(MarkTx(db, ids[0], now), ids[1..], now)
  }

  lemma MarkKeeps(max: nat, db: Db, s: Uuid, now: nat)
    requires DbInv(max, db)
    ensures DbInv(max, MarkTx(db, s, now)) && Evolves(db, MarkTx(db, s, now))
  {
    if s in db.subs && db.subs[s].status == Pending {
      assert SubOk(db, max, db.subs[s]);
      UpdateOpenSub(max, db, s, db.subs[s].(enqueued := Some(now)));
    } else {
      hide DbInv;
      EvolvesReflexive(db);
    }
  }

  lemma {:induction false} MarkAllKeeps(max: nat, db: Db, ids: seq<Uuid>, now: nat)
    requires DbInv(max, db)
    ensures DbInv(max, MarkAll(db, ids, now)) && Evolves(db, MarkAll(db, ids, now))
    decreases |ids|
  {
    hide DbInv, Evolves;
    if ids == [] {
      EvolvesReflexive(db);
    } else {
      var mid := MarkTx(db, ids[0], now);
      MarkKeeps(max, db, ids[0], now);
      MarkAllKeeps(max, mid, ids[1..], now);
      EvolvesTransitive(db, mid, MarkAll(db, ids, now));
    }
  }

  lemma {:induction false} MarkAllMeaning(db: Db, ids: seq<Uuid>, now: nat)
    requires forall i | 0 <= i < |ids| :: ids[i] in db.subs && db.subs[ids[i]].status == Pending
    ensures var db' := MarkAll(db, ids, now);
      && db' == db.(subs := db'.subs) && db'.subs.Keys == db.subs.Keys
      && (forall s | s in db.subs ::
            db'.subs[s] == if s in ids then db.subs[s].(enqueued := Some(now)) else db.subs[s])
    decreases |ids|
  {
    if ids != [] {
      MarkAllMeaning(MarkTx(db, ids[0], now), ids[1..], now);
      assert ids == [ids[0]] + ids[1..];
    }
  }

  /** Unlocked pending rows never enqueued, or not for `stale`, created before `s`, equal
      times by id. */
  function WaitingBefore(db: Db, now: nat, stale: nat, locked: set<Uuid>, s: Uuid): set<Uuid>
    requires s in db.subs
  {
    set t | t in db.subs && t !in locked && db.subs[t].status == Pending
            && (db.subs[t].enqueued == None || db.subs[t].enqueued.value + stale <= now)
            && (db.subs[t].created < db.subs[s].created || (db.subs[t].created == db.subs[s].created && t < s))
  }

  /** A dispatch round marks a row exactly if it is pending, not enqueued for `stale` or
      never, nobody has it locked and fewer than `batch` such rows come before it; the
      mark is all that changes. */
  lemma RoundMeaning(db: Db, batch: nat, now: nat, stale: nat, locked: set<Uuid>)
    ensures var page := Oldest(DueKeys(db, now, stale, locked), batch);
      var db' := MarkAll(db, page, now);
      && db' == db.(subs := db'.subs) && db'.subs.Keys == db.subs.Keys
      && (forall s | s in db.subs :: s in page <==>
            && db.subs[s].status == Pending && s !in locked
            && (db.subs[s].enqueued == None || db.subs[s].enqueued.value + stale <= now)
            && |WaitingBefore(db, now, stale, locked, s)| < batch)
      && (forall s | s in page :: s in db.subs && db'.subs[s] == db.subs[s].(enqueued := Some(now)))
      && (forall s | s in db.subs && s !in page :: db'.subs[s] == db.subs[s])
  {
    var keys := DueKeys(db, now, stale, locked);
    var page := Oldest(keys, batch);
    OldestIsPage(keys, batch);
    MarkAllMeaning(db, page, now);
    forall s | s in db.subs && s in keys
      ensures s in page <==> |WaitingBefore(db, now, stale, locked, s)| < batch
    {
      OnPageIff(keys, batch, s);
      assert Ahead(keys, s) == WaitingBefore(db, now, stale, locked, s);
    }
  }

  /** One mark: a pending row gets the time, and nothing else changes. */
  lemma MarkMeaning(db: Db, s: Uuid, now: nat)
    ensures var db' := MarkTx(db, s, now);
      db' == if s in db.subs && db.subs[s].status == Pending
             then db.(subs := db.subs[s := db.subs[s].(enqueued := Some(now))]) else db
  {
  }

  /** A dispatch round takes `min(batch, size)` rows off the due set: with a
      positive stale interval nothing becomes due while the clock stands still. */
  lemma DispatchDrains(db: Db, batch: nat, now: nat, stale: nat)
    requires stale > 0
    ensures var page := Oldest(DueKeys(db, now, stale, {}), batch);
      var db' := MarkAll(db, page, now);
      && DueKeys(db', now, stale, {}) == DueKeys(db, now, stale, {}) - Elements(page)
      && |DueKeys(db', now, stale, {})|
           == |DueKeys(db, now, stale, {})| - Min(batch, |DueKeys(db, now, stale, {})|)
  {
    var keys := DueKeys(db, now, stale, {});
    var page := Oldest(keys, batch);
    OldestIsPage(keys, batch);
    Leases.PageSize(keys, page);
    MarkAllMeaning(db, page, now);
    LeftDue(db, MarkAll(db, page, now), page, now, stale);
  }

  lemma LeftDue(db: Db, db': Db, page: seq<Uuid>, now: nat, stale: nat)
    requires stale > 0 && db'.subs.Keys == db.subs.Keys
    requires forall s | s in db.subs ::
               db'.subs[s] == if s in page then db.subs[s].(enqueued := Some(now)) else db.subs[s]
    ensures DueKeys(db', now, stale, {}) == DueKeys(db, now, stale, {}) - Elements(page)
  {
  }
}
