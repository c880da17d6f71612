// The services between tables and stream as the objects they are: the stream
// client, the dispatcher, the judge worker and the reaper's stream sweep, with every
// call able to fail before or after taking effect.
module Workers {
  import opened Base
  import opened Rows
  import opened JudgeStore
  import opened JudgeResult
  import opened Stream
  import opened Tables
  import Marks = Dispatch

  datatype Fault = NoFault | FailsBefore | FailsAfter

  /** XADD for each of `ids` in order. */
  function AddAll(st: Stream, ids: seq<Uuid>): Stream
    decreases |ids|
  {
    if ids == [] then st else Add(AddAll(st, ids[..|ids| - 1]), JobFor(ids[|ids| - 1]))
  }

  /** The pending entries after delivering `taken` to one consumer. */
  function Delivered(pel: map<nat, Delivery>, taken: seq<nat>, owner: Consumer, now: nat): map<nat, Delivery>
    decreases |taken|
  {
    if taken == [] then pel
    else Delivered(pel, taken[..|taken| - 1], owner, now)[taken[|taken| - 1] := Delivery(owner, now)]
  }

  function Ids(jobs: seq<(nat, Job)>): seq<nat> {
    seq(|jobs|, i requires 0 <= i < |jobs| => jobs[i].0)
  }

  lemma NoneDelivered(pel: map<nat, Delivery>, owner: Consumer, now: nat)
    ensures Ids([]) == [] && Delivered(pel, [], owner, now) == pel
  {
  }

  lemma OneDelivered(pel: map<nat, Delivery>, jobs: seq<(nat, Job)>, job: (nat, Job), owner: Consumer, now: nat)
    ensures Ids(jobs + [job]) == Ids(jobs) + [job.0]
    ensures Delivered(pel, Ids(jobs + [job]), owner, now)
        == Delivered(pel, Ids(jobs), owner, now)[job.0 := Delivery(owner, now)]
  {
  }

  lemma {:induction false} DeliveredMeaning(pel: map<nat, Delivery>, taken: seq<nat>, owner: Consumer, now: nat)
    ensures var pel' := Delivered(pel, taken, owner, now);
      && (forall e :: e in pel' <==> e in pel || e in taken)
      && (forall e | e in pel' :: pel'[e] == if e in taken then Delivery(owner, now) else pel[e])
    decreases |taken|
  {
    if taken != [] {
      DeliveredMeaning(pel, taken[..|taken| - 1], owner, now);
      assert taken == taken[..|taken| - 1] + [taken[|taken| - 1]];
    }
  }

  lemma FrontIsEntry(st: Stream)
    requires StreamOk(st) && st.undelivered != []
    ensures st.undelivered[0] in st.entries
  {
  }

  function ReassignAll(st: Stream, page: seq<nat>, owner: Consumer, now: nat): Stream {
    st.(pel := map e | e in st.pel :: if e in page then Delivery(owner, now) else st.pel[e])
  }

  function IdleKeys(st: Stream, minIdle: nat, now: nat): map<nat, nat> {
    map e | e in st.pel && IdleFor(st, e, minIdle, now) :: e
  }

  /** Entries pending for `minIdle` that come before `e` by id. */
  function IdleBefore(st: Stream, minIdle: nat, now: nat, e: nat): set<nat> {
    set o | o in st.pel && o in st.entries && st.pel[o].since + minIdle <= now && o < e
  }

  /** XAUTOCLAIM takes an entry over exactly if it has been pending for `minIdle` and
      fewer than `count` such entries come before it. */
  lemma ReclaimIdleMeaning(st: Stream, minIdle: nat, count: nat, owner: Consumer, now: nat)
    ensures var page := Oldest(IdleKeys(st, minIdle, now), count);
      var st' := ReassignAll(st, page, owner, now);
      && (forall e :: e in page <==>
            && e in st.pel && e in st.entries && st.pel[e].since + minIdle <= now
            && |IdleBefore(st, minIdle, now, e)| < count)
      && st' == st.(pel := st'.pel) && st'.pel.Keys == st.pel.Keys
      && (forall e | e in st.pel :: st'.pel[e] == if e in page then Delivery(owner, now) else st.pel[e])
  {
    var keys := IdleKeys(st, minIdle, now);
    var page := Oldest(keys, count);
    OldestIsPage(keys, count);
    forall e | e in keys ensures e in page <==> |IdleBefore(st, minIdle, now, e)| < count {
      OnPageIff(keys, count, e);
      assert Ahead(keys, e) == IdleBefore(st, minIdle, now, e);
    }
    hide Oldest;
  }

  /** Some entry carries the job of submission `s`. */
  ghost predicate Carried(st: Stream, s: Uuid) {
    exists e :: e in st.entries && st.entries[e] == JobFor(s)
  }

  /** A job as read: an entry id with what its fields decode to. */
  predicate IsEntry(entries: map<nat, Job>, job: (nat, Job), e: nat) {
    job.0 == e && e in entries && job.1 == entries[e]
  }

  class JudgeQueue {
    var entries: map<nat, Job>
    var undelivered: seq<nat>
    var pel: map<nat, Delivery>
    var next: nat

    function View(): Stream
      reads this
    {
      Stream(entries, undelivered, pel, next)
    }

    ghost predicate Valid()
      reads this
    {
      StreamOk(View())
    }

    constructor ()
      ensures Valid() && View() == EmptyStream
    {
      entries, undelivered, pel, next := map[], [], map[], 1;
    }

    method Enqueue(sub: Uuid) returns (id: Option<nat>)
      requires Valid()
      modifies this
      ensures Valid()
      ensures sub == NIL ==> id == None && View() == old(View())
      ensures sub != NIL ==> id == Some(old(next)) && View() == Add(old(View()), JobFor(sub))
    {
      if sub == NIL {
        return None;
      }
      AddKeeps(View(), JobFor(sub));
      id := Some(next);
      entries := entries[next := JobFor(sub)];
      undelivered := undelivered + [next];
      next := next + 1;
    }

    /** Delivering the oldest new entry. */
    method Take(owner: Consumer, now: nat) returns (job: (nat, Job))
      requires Valid() && undelivered != []
      modifies this`undelivered, this`pel
      ensures Valid() && View() == Deliver(old(View()), owner, now)
      ensures IsEntry(entries, job, old(undelivered)[0])
    {
      DeliverKeeps(View(), owner, now);
      FrontIsEntry(View());
      job := (undelivered[0], entries[undelivered[0]]);
      pel := pel[undelivered[0] := Delivery(owner, now)];
      undelivered := undelivered[1..];
    }

    /** XREADGROUP of up to `count` new entries, oldest first. */
    method Read(owner: Consumer, count: nat, now: nat) returns (jobs: seq<(nat, Job)>)
      requires Valid()
      modifies this`undelivered, this`pel
      ensures Valid()
      ensures |jobs| <= count && (|jobs| < count ==> undelivered == [])
      ensures Ids(jobs) + undelivered == old(undelivered)
      ensures pel == Delivered(old(pel), Ids(jobs), owner, now)
      ensures forall i | 0 <= i < |jobs| :: IsEntry(entries, jobs[i], jobs[i].0)
      ensures forall e :: e in pel <==> e in old(pel) || e in Ids(jobs)
      ensures forall e | e in pel :: pel[e] == if e in Ids(jobs) then Delivery(owner, now) else old(pel)[e]
    {
      jobs := [];
      hide StreamOk, Delivered, Ids;
      NoneDelivered(pel, owner, now);
      while |jobs| < count && undelivered != []
        invariant Valid() && |jobs| <= count
        invariant Ids(jobs) + undelivered == old(undelivered)
        invariant pel == Delivered(old(pel), Ids(jobs), owner, now)
        invariant forall i | 0 <= i < |jobs| :: IsEntry(entries, jobs[i], jobs[i].0)
      {
        ghost var before, rest := jobs, undelivered;
        var job := Take(owner, now);
        OneDelivered(old(pel), before, job, owner, now);
        assert Ids(before) + rest == (Ids(before) + [rest[0]]) + rest[1..];
        assert undelivered == rest[1..];
        jobs := jobs + [job];
      }
      DeliveredMeaning(old(pel), Ids(jobs), owner, now);
    }

    /** XAUTOCLAIM of the first `count` idle entries. */
    method ReclaimIdle(owner: Consumer, minIdle: nat, count: nat, now: nat) returns (jobs: seq<(nat, Job)>)
      requires Valid()
      modifies this`pel
      ensures Valid()
      ensures var page := Oldest(IdleKeys(old(View()), minIdle, now), count);
        && |jobs| == |page| && View() == ReassignAll(old(View()), page, owner, now)
        && NoDuplicates(page)
        && (forall i | 0 <= i < |jobs| :: IsEntry(old(entries), jobs[i], page[i]))
    {
      var keys := IdleKeys(View(), minIdle, now);
      var page := Oldest(keys, count);
      OldestIsPage(keys, count);
      hide Oldest, StreamOk;
      jobs := [];
      for i := 0 to |page|
        invariant Valid() && |jobs| == i
        invariant pel == ReassignAll(old(View()), page[..i], owner, now).pel
        invariant forall k | 0 <= k < i :: IsEntry(old(entries), jobs[k], page[k])
      {
        var e := page[i];
        assert e in keys && page[..i + 1] == page[..i] + [e];
        ReassignKeeps(View(), e, owner, now);
        pel := pel[e := Delivery(owner, now)];
        jobs := jobs + [(e, entries[e])];
      }
      assert page[..|page|] == page;
    }

    method Finalize(e: nat) returns (ok: bool)
      requires Valid()
      modifies this`entries, this`pel
      ensures Valid()
      ensures (View(), ok) == FinalizeEntry(old(View()), e)
    {
      FinalizeMeaning(View(), e);
      if e in pel {
        pel := pel - {e};
        entries := entries - {e};
        return true;
      }
      ok := e !in entries;
    }
  }

  // ----------------------------------------------------------------------- dispatcher

  class Dispatcher {
    const db: Database
    const queue: JudgeQueue
    const staleAfter: nat
    const batchSize: nat

    constructor (db: Database, queue: JudgeQueue, staleAfter: nat, batchSize: nat)
      requires staleAfter > 0 && batchSize > 0
      ensures this.db == db && this.queue == queue && this.staleAfter == staleAfter && this.batchSize == batchSize
    {
      this.db, this.queue, this.staleAfter, this.batchSize := db, queue, staleAfter, batchSize;
    }

    /** `Dispatch`: the row is marked only after its job is in the stream. */
    method Dispatch(sub: Uuid, xadd: Fault, mark: Fault, now: nat) returns (ok: bool)
      requires queue.Valid()
      modifies queue, db`subs
      ensures queue.Valid()
      ensures ok <==> sub != NIL && xadd == NoFault && mark == NoFault
      ensures queue.View() == if sub == NIL || xadd == FailsBefore then old(queue.View())
          else Add(old(queue.View()), JobFor(sub))
      ensures db.View() == if sub == NIL || xadd != NoFault || mark == FailsBefore then old(db.View())
                           else Marks.MarkTx(old(db.View()), sub, now)
    {
      if sub == NIL || xadd == FailsBefore {
        return false;
      }
      var _ := queue.Enqueue(sub);
      if xadd == FailsAfter || mark == FailsBefore {
        return false;
      }
      db.MarkEnqueued(sub, now);
      ok := mark == NoFault;
    }

    /** `DispatchPending`: one transaction around the loop. An error undoes the marks
        but not the entries, so no row is ever marked without an entry; success has
        enqueued and marked the whole page. */
    method DispatchPending(locked: set<Uuid>, xadd: nat -> Fault, mark: nat -> Fault, commit: Fault, now: nat)
      returns (err: bool, count: nat, ghost added: nat)
      requires queue.Valid() && NIL !in db.subs
      modifies queue, db`subs
      ensures queue.Valid()
      ensures var page := Oldest(Marks.DueKeys(old(db.View()), now, staleAfter, locked), batchSize);
        && added <= |page| && queue.View() == AddAll(old(queue.View()), page[..added])
        && (!err ==> count == added == |page|)
        && (db.View() == old(db.View()) || (added == |page| && db.View() == Marks.MarkAll(old(db.View()), page, now)))
        && (!err ==> db.View() == Marks.MarkAll(old(db.View()), page, now))
    {
      var page := Oldest(Marks.DueKeys(db.View(), now, staleAfter, locked), batchSize);
      OldestIsPage(Marks.DueKeys(db.View(), now, staleAfter, locked), batchSize);
      assert forall i | 0 <= i < |page| :: page[i] in db.subs;
      hide Oldest, IsPage, StreamOk, AddAll, Marks.MarkAll;
      var before := db.subs;
      var ok: bool;
      ok, added := EnqueueAll(page, xadd, mark, now);
      if !ok {
        db.subs := before;
        return true, 0, added;
      }
      if commit == FailsBefore {
        db.subs := before;
      }
      return commit != NoFault, if commit == NoFault then |page| else 0, added;
    }

    /** The loop: enqueue, then mark, one row after the other. */
    method EnqueueAll(page: seq<Uuid>, xadd: nat -> Fault, mark: nat -> Fault, now: nat)
      returns (ok: bool, ghost added: nat)
      requires queue.Valid() && forall i | 0 <= i < |page| :: page[i] != NIL
      modifies queue, db`subs
      ensures queue.Valid() && added <= |page| && queue.View() == AddAll(old(queue.View()), page[..added])
      ensures db.View() == old(db.View()).(subs := db.subs)
      ensures ok ==> added == |page| && db.View() == Marks.MarkAll(old(db.View()), page, now)
    {
      hide StreamOk, AddAll, Marks.MarkAll;
      added := 0;
      NothingAdded(queue.View(), page);
      for i := 0 to |page|
        invariant queue.Valid() && added == i
        invariant db.View() == old(db.View()).(subs := db.subs)
        invariant queue.View() == AddAll(old(queue.View()), page[..i])
        invariant Marks.MarkAll(db.View(), page[i..], now) == Marks.MarkAll(old(db.View()), page, now)
      {
        OneMore(old(queue.View()), db.View(), page, i, now);
        ok := Dispatch(page[i], xadd(i), mark(i), now);
        added := if xadd(i) == FailsBefore then i else i + 1;
        if !ok {
          return;
        }
      }
      assert page[..|page|] == page;
      AllMarked(db.View(), page, now);
      ok := true;
    }
  }

  lemma NothingAdded(st: Stream, page: seq<Uuid>)
    ensures AddAll(st, page[..0]) == st && page[0..] == page
  {
  }

  lemma OneMore(st: Stream, db: Db, page: seq<Uuid>, i: nat, now: nat)
    requires i < |page|
    ensures AddAll(st, page[..i + 1]) == Add(AddAll(st, page[..i]), JobFor(page[i]))
    ensures Marks.MarkAll(db, page[i..], now) == Marks.MarkAll(Marks.MarkTx(db, page[i], now), page[i + 1..], now)
  {
    assert page[..i + 1][..i] == page[..i] && page[i..][1..] == page[i + 1..];
  }

  lemma AllMarked(db: Db, page: seq<Uuid>, now: nat)
    ensures Marks.MarkAll(db, page[|page|..], now) == db
  {
  }

  // --------------------------------------------------------------------- result events

  /** buildResultEvents: the checks, then one event per recipient. */
  method BuildResultEvents(r: Record) returns (events: Option<seq<Event>>)
    ensures events == BuildEvents(r)
  {
    if r.sub == NIL || r.matchId == NIL || r.player == NIL || r.total == 0 || r.passed > r.total {
      return None;
    }
    if |r.players| != 2 || r.players[0] == NIL || r.players[1] == NIL || r.players[0] == r.players[1]
       || (r.player != r.players[0] && r.player != r.players[1]) {
      return None;
    }
    var kind := SubmissionResult;
    if r.winner.Some? {
      if r.winner.value != r.players[0] && r.winner.value != r.players[1] {
        return None;
      }
      kind := WinnerResult;
    }
    var built: seq<Event> := [];
    for i := 0 to |r.players|
      invariant |built| == i
      invariant forall k | 0 <= k < i :: built[k] == EventFor(r, r.players[k])
    {
      var outcome := Undecided;
      if r.winner.Some? {
        outcome := if r.players[i] == r.winner.value then Won else Lost;
      }
      built := built + [Event(r.players[i], kind, r, outcome)];
    }
    assert built == [EventFor(r, r.players[0]), EventFor(r, r.players[1])];
    events := Some(built);
  }
}
