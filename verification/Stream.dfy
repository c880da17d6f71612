// internal/redisx/judge_queue.go: the Redis Stream that carries judge jobs to one
// consumer group, as the effect of each command on entries and pending entries.
module Stream {
  import opened Base

  /** What `decodeJudgeJob` makes of an entry. */
  datatype Job = JobFor(sub: Uuid) | Malformed

  datatype Consumer = JudgeConsumer(id: nat) | ReaperConsumer(id: nat)

  /** A pending-entries-list item: who has it, and since when its idle time counts. */
  datatype Delivery = Delivery(owner: Consumer, since: nat)

  datatype Stream = Stream(
    entries: map<nat, Job>,
    undelivered: seq<nat>,        // entries the group has not read yet, oldest first
    pel: map<nat, Delivery>,
    next: nat)                    // the id the next XADD gets

  const EmptyStream := Stream(map[], [], map[], 1)

  /** XADD. */
  function Add(st: Stream, job: Job): Stream {
    Stream(st.entries[st.next := job], st.undelivered + [st.next], st.pel, st.next + 1)
  }

  /** XREADGROUP ... > COUNT 1. */
  function Deliver(st: Stream, owner: Consumer, now: nat): Stream
    requires st.undelivered != []
  {
    st.(undelivered := st.undelivered[1..], pel := st.pel[st.undelivered[0] := Delivery(owner, now)])
  }

  predicate IdleFor(st: Stream, e: nat, minIdle: nat, now: nat) {
    e in st.pel && e in st.entries && st.pel[e].since + minIdle <= now
  }

  /** XAUTOCLAIM of one entry. */
  function Reassign(st: Stream, e: nat, owner: Consumer, now: nat): Stream
    requires e in st.pel
  {
    st.(pel := st.pel[e := Delivery(owner, now)])
  }

  /** The finalize script: XACK and, if that removed a pending entry, XDEL. False
      means the entry still exists but was not pending. */
  function FinalizeEntry(st: Stream, e: nat): (Stream, bool) {
    if e in st.pel then (st.(pel := st.pel - {e}, entries := st.entries - {e}), true)
    else (st, e !in st.entries)
  }

  /** Every id handed out is in exactly one place: undelivered, pending at one
      consumer, or gone; undelivered entries come in id order without repetition. */
  ghost predicate StreamOk(st: Stream) {
    && st.next > 0
    && (forall e | e in st.entries :: 0 < e < st.next)
    && (forall i | 0 <= i < |st.undelivered| :: st.undelivered[i] in st.entries && st.undelivered[i] !in st.pel)
    && (forall i, j | 0 <= i < j < |st.undelivered| :: st.undelivered[i] < st.undelivered[j])
    && (forall e | e in st.pel :: e in st.entries)
    && (forall e | e in st.entries && e !in st.pel :: e in st.undelivered)
  }

  lemma AddKeeps(st: Stream, job: Job)
    requires StreamOk(st)
    ensures StreamOk(Add(st, job))
  {
  }

  lemma DeliverKeeps(st: Stream, owner: Consumer, now: nat)
    requires StreamOk(st) && st.undelivered != []
    ensures StreamOk(Deliver(st, owner, now))
  {
  }

  lemma ReassignKeeps(st: Stream, e: nat, owner: Consumer, now: nat)
    requires StreamOk(st) && e in st.pel
    ensures StreamOk(Reassign(st, e, owner, now))
  {
  }

  /** FinalizeEntry takes effect exactly on pending entries, never touches an
      undelivered one, and doing it twice is doing it once. */
  lemma FinalizeMeaning(st: Stream, e: nat)
    requires StreamOk(st)
    ensures var (st', ok) := FinalizeEntry(st, e);
      && StreamOk(st')
      && st'.undelivered == st.undelivered && st'.next == st.next
      && st'.entries.Keys == (if e in st.pel then st.entries.Keys - {e} else st.entries.Keys)
      && (ok <==> e !in st.undelivered)
      && st'.pel == st.pel - {e} && (forall o | o in st'.entries :: st'.entries[o] == st.entries[o])
      && (ok ==> e !in st'.entries && FinalizeEntry(st', e) == (st', true))
  {
  }
}
