// Any sequence of the four scripts, with the server clock going backwards,
// presence changing at will and requeues repeated or late.
module QueueRuns {
  import opened Base
  import opened SortedSet
  import opened MatchQueue
  import opened PopPair

  datatype Op =
    | Enqueue(m: Member, time: nat)
    | Dequeue(m: Member)
    | Pop(limit: nat, alive: Presence)
    | Requeue(entries: seq<Slot>, alive: Presence)

  /** The queue, whom each score was issued to, and every entry popped so far. */
  datatype State = State(q: Queue, issued: map<nat, Uuid>, popped: set<Slot>)

  const Empty := State(EmptyQueue, map[], {})

  function SlotOf(e: Entry): Slot
    requires e.raw.Encoded?
  {
    Slot(e.raw.member, e.score)
  }

  predicate Enabled(st: State, op: Op) {
    match op
    case Enqueue(m, _) => ValidMember(m)
    case Dequeue(m) => ValidMember(m)
    case Pop(limit, _) => limit > 0
    case Requeue(entries, _) => forall s | s in entries :: s in st.popped
  }

  function Step(st: State, op: Op): State {
    match op
    case Enqueue(m, time) =>
      var (q', added, score) := EnqueueTx(st.q, m, time);
      State(q', if added then st.issued[score := m.user] else st.issued, st.popped)
    case Dequeue(m) => st.(q := DequeueTx(st.q, m).0)
    case Pop(limit, alive) =>
      var (q', pair) := PopTx(st.q, limit, alive);
      State(q', st.issued, st.popped + set e | e in pair && e.raw.Encoded? :: SlotOf(e))
    case Requeue(entries, alive) => st.(q := RequeueTx(st.q, entries, alive).0)
  }

  ghost predicate RunOk(st: State, ops: seq<Op>)
    decreases |ops|
  {
    ops == [] || (Enabled(st, ops[0]) && RunOk(Step(st, ops[0]), ops[1..]))
  }

  function Run(st: State, ops: seq<Op>): State
    decreases |ops|
  {
    if ops == [] then st else Run(Step(st, ops[0]), ops[1..])
  }

  predicate Issued(issued: map<nat, Uuid>, last: nat, s: Slot) {
    s.score in issued && issued[s.score] == s.member.user && s.score <= last && ValidMember(s.member)
  }

  ghost predicate Tracked(view: map<Uuid, Slot>, issued: map<nat, Uuid>, popped: set<Slot>, last: nat) {
    && (forall score | score in issued :: score <= last)
    && (forall u | u in view :: Issued(issued, last, view[u]) && view[u].member.user == u)
    && (forall s | s in popped :: Issued(issued, last, s))
  }

  /** Sorted set and hash agree, and every score in the queue or popped from it was
      issued to its own user. */
  ghost predicate Inv(st: State) {
    Agree(st.q) && Tracked(View(st.q), st.issued, st.popped, st.q.last)
  }

  lemma IssuedIsFree(st: State, s: Slot)
    requires Inv(st) && Issued(st.issued, st.q.last, s)
    ensures FreeScore(st.q, s.member.user, s.score)
  {
    forall e | e in st.q.zset && UserOf(e.raw) != Some(s.member.user) ensures e.score != s.score {
      assert WellFormed(e.raw);
      InView(st.q, e.raw.member.user, SlotOf(e));
    }
  }

  lemma EnqueueTracked(view: map<Uuid, Slot>, issued: map<nat, Uuid>, popped: set<Slot>, last: nat, m: Member,
      score: nat)
    requires Tracked(view, issued, popped, last) && ValidMember(m)
    ensures m.user in view ==> Tracked(EnqueueView(view, m, score), issued, popped, last)
    ensures m.user !in view && last < score
        ==> Tracked(EnqueueView(view, m, score), issued[score := m.user], popped, score)
  {
  }

  lemma EnqueueStep(st: State, m: Member, time: nat)
    requires Inv(st) && ValidMember(m)
    ensures Inv(Step(st, Enqueue(m, time)))
  {
    EnqueueKeeps(st.q, m, time);
    EnqueueTracked(View(st.q), st.issued, st.popped, st.q.last, m, EnqueueTx(st.q, m, time).2);
    hide Agree, EnqueueTx, EnqueueView, Tracked, View;
  }

  lemma DequeueStep(st: State, m: Member)
    requires Inv(st)
    ensures Inv(Step(st, Dequeue(m)))
  {
    DequeueKeeps(st.q, m);
    assert Tracked(DequeueView(View(st.q), m), st.issued, st.popped, st.q.last) by { hide View, Agree; }
    hide Agree, DequeueTx, DequeueView, Tracked, View;
  }

  lemma PopStep(st: State, limit: nat, alive: Presence)
    requires Inv(st)
    ensures Inv(Step(st, Pop(limit, alive)))
  {
    PopKeeps(st.q, limit, alive);
    ChosenAreLive(st.q, limit, alive);
    forall e | e in Chosen(st.q, limit, alive) && e.raw.Encoded? ensures Issued(st.issued, st.q.last, SlotOf(e)) {
      InView(st.q, e.raw.member.user, SlotOf(e));
    }
    hide Agree, Chosen, Dropped;
  }

  lemma RequeueTracked(view: map<Uuid, Slot>, issued: map<nat, Uuid>, popped: set<Slot>, last: nat, s: Slot,
      alive: Presence)
    requires Tracked(view, issued, popped, last) && s in popped
    ensures Tracked(RequeueView(view, s, alive), issued, popped, last)
  {
  }

  /** One triple of a requeue. */
  lemma RequeueOneStep(st: State, s: Slot, alive: Presence)
    requires Inv(st) && s in st.popped
    ensures var next := st.(q := RequeueOne(st.q, s, alive).0);
      Inv(next) && View(next.q) == RequeueView(View(st.q), s, alive)
  {
    IssuedIsFree(st, s);
    RequeueOneKeeps(st.q, s, alive);
    RequeueTracked(View(st.q), st.issued, st.popped, st.q.last, s, alive);
    hide Agree, RequeueOne, RequeueView, Tracked, View, FreeScore;
  }

  /** A requeue adds exactly the absent, present users of its entries (the first
      entry of a user wins) and moves nobody. */
  function RequeueAllView(view: map<Uuid, Slot>, entries: seq<Slot>, alive: Presence): map<Uuid, Slot>
    decreases |entries|
  {
    if entries == [] then view else RequeueAllView(RequeueView(view, entries[0], alive), entries[1..], alive)
  }

  lemma {:induction false} RequeueStep(st: State, entries: seq<Slot>, alive: Presence)
    requires Inv(st) && forall s | s in entries :: s in st.popped
    ensures var st' := Step(st, Requeue(entries, alive));
      Inv(st') && View(st'.q) == RequeueAllView(View(st.q), entries, alive)
    decreases |entries|
  {
    if entries != [] {
      var s := entries[0];
      RequeueOneStep(st, s, alive);
      var next := st.(q := RequeueOne(st.q, s, alive).0);
      assert next.popped == st.popped && Step(next, Requeue(entries[1..], alive)) == Step(st, Requeue(entries, alive));
      hide Tracked, Agree, RequeueOne, RequeueView, View, Step;
      RequeueStep(next, entries[1..], alive);
    }
  }

  lemma StepKeeps(st: State, op: Op)
    requires Inv(st) && Enabled(st, op)
    ensures Inv(Step(st, op))
  {
    hide Inv;
    match op {
      case Enqueue(m, time) => EnqueueStep(st, m, time);
      case Dequeue(m) => DequeueStep(st, m);
      case Pop(limit, alive) => PopStep(st, limit, alive);
      case Requeue(entries, alive) => RequeueStep(st, entries, alive);
    }
  }

  /** In every reachable queue, sorted set and hash are a bijection with one entry
      per user, at pairwise distinct scores that never exceed the last issued one. */
  lemma {:induction false} RunKeeps(st: State, ops: seq<Op>)
    requires Inv(st) && RunOk(st, ops)
    ensures Inv(Run(st, ops))
    decreases |ops|
  {
    hide Inv;
    if ops != [] {
      StepKeeps(st, ops[0]);
      RunKeeps(Step(st, ops[0]), ops[1..]);
    }
  }

  /** From an empty queue: one entry per user in both structures, no two entries at
      one score, none above the last score issued. */
  lemma ReachableQueue(ops: seq<Op>)
    requires RunOk(Empty, ops)
    ensures var q := Run(Empty, ops).q;
      && (forall i, j | 0 <= i < j < |q.zset| ::
            q.zset[i].score < q.zset[j].score <= q.last && UserOf(q.zset[i].raw) != UserOf(q.zset[j].raw))
      && (forall e | e in q.zset :: UserOf(e.raw).Some? && UserOf(e.raw).value in q.members
            && q.members[UserOf(e.raw).value] == e.raw)
      && (forall u | u in q.members :: exists e :: e in q.zset && e.raw == q.members[u] && UserOf(e.raw) == Some(u))
  {
    assert Inv(Empty);
    RunKeeps(Empty, ops);
    var q := Run(Empty, ops).q;
    forall u | u in q.members ensures exists e :: e in q.zset && e.raw == q.members[u] && UserOf(e.raw) == Some(u) {
      assert Entry(q.members[u], Score(q.zset, q.members[u]).value) in q.zset;
    }
    hide Run, Tracked;
    forall i, j | 0 <= i < j < |q.zset| ensures UserOf(q.zset[i].raw) != UserOf(q.zset[j].raw) {
      assert q.zset[i] in q.zset && q.zset[j] in q.zset;
    }
  }

  // ---------------------------------------------------------------- order of arrival

  lemma {:induction false} RequeueAllKeepsPlaces(view: map<Uuid, Slot>, entries: seq<Slot>, alive: Presence)
    ensures var after := RequeueAllView(view, entries, alive);
      && (forall u | u in view :: u in after && after[u] == view[u])
      && (forall s | s in entries && Present(alive, s.member) :: s.member.user in after)
    decreases |entries|
  {
    if entries != [] {
      var mid := RequeueView(view, entries[0], alive);
      var after := RequeueAllView(view, entries, alive);
      RequeueAllKeepsPlaces(mid, entries[1..], alive);
      assert forall u | u in view :: u in mid && mid[u] == view[u];
      forall s | s in entries && Present(alive, s.member) ensures s.member.user in after {
        if s == entries[0] {
          assert s.member.user in mid;
        } else {
          assert s in entries[1..] by { assert entries == [entries[0]] + entries[1..]; }
        }
      }
    }
  }

  /** Whoever is queued before and after has the same score. */
  ghost predicate InPlace(before: map<Uuid, Slot>, after: map<Uuid, Slot>) {
    forall u | u in before && u in after :: after[u].score == before[u].score
  }

  lemma EnqueueInPlace(st: State, m: Member, time: nat)
    requires Inv(st) && ValidMember(m)
    ensures var q' := EnqueueTx(st.q, m, time).0; Agree(q') && InPlace(View(st.q), View(q'))
  {
    assert Agree(st.q);
    hide *;
    EnqueueKeeps(st.q, m, time);
    ReconnectInPlace(View(st.q), m, EnqueueTx(st.q, m, time).2);
  }

  lemma ReconnectInPlace(view: map<Uuid, Slot>, m: Member, score: nat)
    ensures InPlace(view, EnqueueView(view, m, score))
  {
  }

  lemma DequeueInPlace(st: State, m: Member)
    requires Inv(st)
    ensures var q' := DequeueTx(st.q, m).0; Agree(q') && InPlace(View(st.q), View(q'))
  {
    DequeueKeeps(st.q, m);
    hide Agree, DequeueTx, View, Tracked;
  }

  lemma PopInPlace(st: State, limit: nat, alive: Presence)
    requires Inv(st)
    ensures var q' := PopTx(st.q, limit, alive).0; Agree(q') && InPlace(View(st.q), View(q'))
  {
    PopKeeps(st.q, limit, alive);
    hide Agree, PopTx, View, Tracked;
  }

  lemma RequeueInPlace(st: State, entries: seq<Slot>, alive: Presence)
    requires Inv(st) && Enabled(st, Requeue(entries, alive))
    ensures var q' := RequeueTx(st.q, entries, alive).0; Agree(q') && InPlace(View(st.q), View(q'))
  {
    RequeueStep(st, entries, alive);
    RequeueAllKeepsPlaces(View(st.q), entries, alive);
    hide Agree, RequeueTx, View, Tracked, RequeueAllView;
  }

  /** No step moves a user. */
  lemma StaysInPlace(st: State, op: Op)
    requires Inv(st) && Enabled(st, op)
    ensures Agree(Step(st, op).q) && InPlace(View(st.q), View(Step(st, op).q))
  {
    assert Agree(st.q);
    hide Inv, Agree, InPlace, EnqueueTx, DequeueTx, PopTx, RequeueTx, View;
    match op {
      case Enqueue(m, time) => EnqueueInPlace(st, m, time);
      case Dequeue(m) => DequeueInPlace(st, m);
      case Pop(limit, alive) => PopInPlace(st, limit, alive);
      case Requeue(entries, alive) => RequeueInPlace(st, entries, alive);
    }
  }

  /** A user who is queued in every state of a run keeps one score throughout, so
      two such users keep their order, however often either reconnects. */
  ghost predicate QueuedThroughout(st: State, ops: seq<Op>, u: Uuid)
    decreases |ops|
  {
    u in st.q.members && (ops == [] || QueuedThroughout(Step(st, ops[0]), ops[1..], u))
  }

  lemma {:induction false} KeepsPlace(st: State, ops: seq<Op>, u: Uuid)
    requires Inv(st) && RunOk(st, ops) && QueuedThroughout(st, ops, u)
    ensures Agree(Run(st, ops).q) && u in View(Run(st, ops).q)
    ensures View(Run(st, ops).q)[u].score == View(st.q)[u].score
    decreases |ops|
  {
    if ops != [] {
      StepKeeps(st, ops[0]);
      StaysInPlace(st, ops[0]);
      assert u in View(Step(st, ops[0]).q);
      hide Agree, Step;
      KeepsPlace(Step(st, ops[0]), ops[1..], u);
    }
  }

  /** A newcomer goes behind everyone who is queued or was ever popped, even if the
      server clock went backwards. */
  lemma NewcomersGoLast(st: State, m: Member, time: nat)
    requires Inv(st) && ValidMember(m) && m.user !in View(st.q)
    ensures var score := EnqueueTx(st.q, m, time).2;
      && (forall u | u in View(st.q) :: View(st.q)[u].score < score)
      && (forall s | s in st.popped :: s.score < score)
  {
  }

  /** Requeueing a popped entry gives its user the old score back, unless the user
      queued again meanwhile or is no longer present. */
  lemma RequeueRestores(st: State, s: Slot, alive: Presence)
    requires Inv(st) && s in st.popped
    ensures var q' := Step(st, Requeue([s], alive)).q;
      && Agree(q')
      && View(q') == (if s.member.user !in View(st.q) && Present(alive, s.member)
                      then View(st.q)[s.member.user := s] else View(st.q))
  {
    RequeueStep(st, [s], alive);
    assert RequeueAllView(View(st.q), [s], alive) == RequeueView(View(st.q), s, alive);
    hide Agree, RequeueTx;
  }

  lemma {:induction false} NothingToRequeue(view: map<Uuid, Slot>, entries: seq<Slot>, alive: Presence)
    requires forall s | s in entries && Present(alive, s.member) :: s.member.user in view
    ensures RequeueAllView(view, entries, alive) == view
    decreases |entries|
  {
    if entries != [] { NothingToRequeue(view, entries[1..], alive); }
  }

  /** A requeue that took effect without its caller learning so can be repeated. */
  lemma RequeueTwice(st: State, entries: seq<Slot>, alive: Presence)
    requires Inv(st) && Enabled(st, Requeue(entries, alive))
    ensures var once := Step(st, Requeue(entries, alive));
      var twice := Step(once, Requeue(entries, alive));
      Agree(once.q) && Agree(twice.q) && View(twice.q) == View(once.q)
  {
    var once := Step(st, Requeue(entries, alive));
    RequeueStep(st, entries, alive);
    RequeueStep(once, entries, alive);
    RequeueAllKeepsPlaces(View(st.q), entries, alive);
    NothingToRequeue(View(once.q), entries, alive);
    hide Agree, RequeueTx, View, RequeueAllView;
  }
}
