// The four Lua scripts of internal/redisx/scripts as functions on the sorted set,
// the hash and the last-score key, and the one map they stand for together.
module MatchQueue {
  import opened Base
  import opened SortedSet

  /** A queued or popped member with its score (QueueEntry). */
  datatype Slot = Slot(member: Member, score: nat)

  datatype Queue = Queue(zset: seq<Entry>, members: map<Uuid, Raw>, last: nat)

  const EmptyQueue := Queue([], map[], 0)

  /** A presence key is alive for this user and connection. */
  type Presence = set<(Uuid, Uuid)>

  predicate Present(alive: Presence, m: Member) {
    (m.user, m.conn) in alive
  }

  // ---------------------------------------------------------------------- scripts

  /** enqueue.lua at server time `time`, which may run backwards; the result is
      whether the user was added, and the score. */
  function EnqueueTx(q: Queue, m: Member, time: nat): (Queue, bool, nat) {
    var raw := Encoded(m);
    var prev := if m.user in q.members then Some(q.members[m.user]) else None;
    var prevScore := if prev.Some? then Score(q.zset, prev.value) else None;
    if prevScore.Some? then
      if prev.value != raw then
        (Queue(Add(Remove(q.zset, prev.value), raw, prevScore.value), q.members[m.user := raw], q.last),
         false, prevScore.value)
      else (q, false, prevScore.value)
    else
      var score := if time <= q.last then q.last + 1 else time;
      var cleared := if prev.Some? && prev.value != raw then Remove(q.zset, prev.value) else q.zset;
      (Queue(Add(cleared, raw, score), q.members[m.user := raw], score), true, score)
  }

  /** dequeue.lua: whether the exact connection was removed from the sorted set. */
  function DequeueTx(q: Queue, m: Member): (Queue, bool) {
    if m.user !in q.members || q.members[m.user] != Encoded(m) then (q, false)
    else
      (Queue(Remove(q.zset, Encoded(m)), q.members - {m.user}, q.last), Score(q.zset, Encoded(m)).Some?)
  }

  /** One triple of requeue.lua. */
  function RequeueOne(q: Queue, s: Slot, alive: Presence): (Queue, nat) {
    var raw := Encoded(s.member);
    if !Present(alive, s.member) then (q, 0)
    else if s.member.user !in q.members then
      (Queue(Add(q.zset, raw, s.score), q.members[s.member.user := raw], q.last), 1)
    else if q.members[s.member.user] == raw && Score(q.zset, raw).None? then
      (Queue(Add(q.zset, raw, s.score), q.members, q.last), 1)
    else (q, 0)
  }

  function RequeueTx(q: Queue, entries: seq<Slot>, alive: Presence): (Queue, nat)
    decreases |entries|
  {
    if entries == [] then (q, 0)
    else
      var (q', n) := RequeueOne(q, entries[0], alive);
      var (q'', rest) := RequeueTx(q', entries[1..], alive);
      (q'', n + rest)
  }

  /** What pop_pair.lua looks for: a valid member that is its user's current one
      and whose connection is alive. */
  predicate Live(q: Queue, alive: Presence, raw: Raw) {
    WellFormed(raw) && raw.member.user in q.members && q.members[raw.member.user] == raw && Present(alive, raw.member)
  }

  function LiveRaws(q: Queue, alive: Presence): set<Raw> {
    set e | e in q.zset && Live(q, alive, e.raw) :: e.raw
  }

  /** The live members of a stretch of the queue, oldest first. */
  function Lives(q: Queue, alive: Presence, z: seq<Entry>): seq<Entry> {
    Filter(z, LiveRaws(q, alive))
  }

  /** NewQueue's scan limit. */
  function ScanLimit(configured: int): (limit: nat)
    ensures limit > 0 && (configured > 0 ==> limit == configured) && (configured <= 0 ==> limit == 100)
  {
    if configured <= 0 then 100 else configured
  }

  function Window(q: Queue, limit: nat): seq<Entry> {
    q.zset[..Min(limit, |q.zset|)]
  }

  function Chosen(q: Queue, limit: nat, alive: Presence): seq<Entry> {
    var live := Lives(q, alive, Window(q, limit));
    if |live| >= 2 then live[..2] else []
  }

  /** Everything in the window that is not live, and the chosen pair. */
  function Dropped(q: Queue, limit: nat, alive: Presence): set<Raw> {
    (Raws(Window(q, limit)) - LiveRaws(q, alive)) + Raws(Chosen(q, limit, alive))
  }

  /** The hash without the fields that still point at a dropped member. */
  function Forget(members: map<Uuid, Raw>, gone: set<Raw>): map<Uuid, Raw> {
    map u | u in members && !(members[u] in gone && UserOf(members[u]) == Some(u)) :: members[u]
  }

  /** pop_pair.lua. */
  function PopTx(q: Queue, limit: nat, alive: Presence): (Queue, seq<Entry>) {
    var gone := Dropped(q, limit, alive);
    (Queue(Filter(q.zset, Raws(q.zset) - gone), Forget(q.members, gone), q.last), Chosen(q, limit, alive))
  }

  // ------------------------------------------------------------- the two structures

  ghost predicate EntriesOk(q: Queue) {
    forall e | e in q.zset ::
      WellFormed(e.raw) && e.score <= q.last && e.raw.member.user in q.members && q.members[e.raw.member.user] == e.raw
  }

  ghost predicate HashOk(q: Queue) {
    forall u | u in q.members ::
      WellFormed(q.members[u]) && q.members[u].member.user == u && Score(q.zset, q.members[u]).Some?
  }

  /** Sorted set and hash hold the same members, one per user, at distinct scores
      no higher than the last one issued. */
  ghost predicate Agree(q: Queue) {
    Ranked(q.zset) && EntriesOk(q) && HashOk(q)
  }

  /** The queue as one map from users. */
  function View(q: Queue): map<Uuid, Slot>
    requires Agree(q)
  {
    map u | u in q.members :: Slot(q.members[u].member, Score(q.zset, q.members[u]).value)
  }

  lemma InView(q: Queue, u: Uuid, slot: Slot)
    requires Agree(q)
    ensures u in View(q) && View(q)[u] == slot
        <==> slot.member.user == u && Entry(Encoded(slot.member), slot.score) in q.zset
  {
  }

  /** Two queues agree on the map when they have the same entries. */
  lemma ViewFromEntries(q: Queue, view: map<Uuid, Slot>)
    requires Agree(q)
    requires forall e | e in q.zset ::
        e.raw.member.user in view && view[e.raw.member.user] == Slot(e.raw.member, e.score)
    requires forall u | u in view :: view[u].member.user == u && Entry(Encoded(view[u].member), view[u].score) in q.zset
    ensures View(q) == view
  {
    forall u | u in View(q) ensures u in view && view[u] == View(q)[u] {
      InView(q, u, View(q)[u]);
    }
    forall u | u in view ensures u in View(q) { InView(q, u, view[u]); }
  }

  /** A connection taking its user's place keeps the place; a new user gets a score
      above every one issued before. */
  function EnqueueView(view: map<Uuid, Slot>, m: Member, score: nat): map<Uuid, Slot> {
    if m.user in view then view[m.user := Slot(m, view[m.user].score)] else view[m.user := Slot(m, score)]
  }

  function DequeueView(view: map<Uuid, Slot>, m: Member): map<Uuid, Slot> {
    if m.user in view && view[m.user].member == m then view - {m.user} else view
  }

  function RequeueView(view: map<Uuid, Slot>, s: Slot, alive: Presence): map<Uuid, Slot> {
    if Present(alive, s.member) && s.member.user !in view then view[s.member.user := s] else view
  }

  /** A score that no other user holds. */
  predicate FreeScore(q: Queue, user: Uuid, score: nat) {
    score <= q.last && forall e | e in q.zset && UserOf(e.raw) != Some(user) :: e.score != score
  }

  /** `q'` is `q` with the entry of one user, if any, replaced by a new one. */
  ghost predicate Put(q: Queue, q': Queue, m: Member, score: nat) {
    && q.last <= q'.last && score <= q'.last
    && q'.members == q.members[m.user := Encoded(m)]
    && (forall e :: e in q'.zset <==> (e in q.zset && UserOf(e.raw) != Some(m.user)) || e == Entry(Encoded(m), score))
  }

  lemma PutHash(q: Queue, q': Queue, m: Member, score: nat)
    requires HashOk(q) && ValidMember(m) && Put(q, q', m, score)
    ensures HashOk(q')
  {
    forall u | u in q'.members ensures Score(q'.zset, q'.members[u]).Some? {
      var e := if u == m.user then Entry(Encoded(m), score) else Entry(q.members[u], Score(q.zset, q.members[u]).value);
      assert e in q'.zset;
      Scored(q'.zset, e);
    }
  }

  lemma PutEntries(q: Queue, q': Queue, m: Member, score: nat)
    requires EntriesOk(q) && ValidMember(m) && Put(q, q', m, score)
    ensures EntriesOk(q')
  {
  }

  /** Replacing a user's entry, or adding one, keeps the agreement. */
  lemma PutKeeps(q: Queue, q': Queue, m: Member, score: nat)
    requires Agree(q) && ValidMember(m) && Put(q, q', m, score) && Ranked(q'.zset)
    ensures Agree(q') && View(q') == View(q)[m.user := Slot(m, score)]
  {
    assert Agree(q') by { PutAgrees(q, q', m, score); }
    hide Agree, Put, Ranked, Score, View;
    EntriesInView(q, q', m, score);
    SlotsInEntries(q, q', m, score);
    ViewFromEntries(q', View(q)[m.user := Slot(m, score)]);
  }

  lemma PutAgrees(q: Queue, q': Queue, m: Member, score: nat)
    requires Agree(q) && ValidMember(m) && Put(q, q', m, score) && Ranked(q'.zset)
    ensures Agree(q')
  {
    PutHash(q, q', m, score);
    PutEntries(q, q', m, score);
    hide Ranked, EntriesOk, HashOk, Put;
  }

  /** The entries of the new queue stand in the new map. */
  lemma EntriesInView(q: Queue, q': Queue, m: Member, score: nat)
    requires Agree(q) && Agree(q') && Put(q, q', m, score)
    ensures var view := View(q)[m.user := Slot(m, score)];
      forall e | e in q'.zset ::
        e.raw.Encoded? && e.raw.member.user in view && view[e.raw.member.user] == Slot(e.raw.member, e.score)
  {
    var view := View(q)[m.user := Slot(m, score)];
    forall e | e in q'.zset
      ensures e.raw.Encoded? && e.raw.member.user in view && view[e.raw.member.user] == Slot(e.raw.member, e.score)
    {
      assert WellFormed(e.raw);
      if e != Entry(Encoded(m), score) {
        InView(q, e.raw.member.user, Slot(e.raw.member, e.score));
      }
    }
    hide Ranked, HashOk, Score;
  }

  /** The slots of the new map have their entries in the new queue. */
  lemma SlotsInEntries(q: Queue, q': Queue, m: Member, score: nat)
    requires Agree(q) && Put(q, q', m, score)
    ensures var view := View(q)[m.user := Slot(m, score)];
      forall u | u in view :: view[u].member.user == u && Entry(Encoded(view[u].member), view[u].score) in q'.zset
  {
    var view := View(q)[m.user := Slot(m, score)];
    forall u | u in view ensures view[u].member.user == u && Entry(Encoded(view[u].member), view[u].score) in q'.zset {
      if u != m.user { InView(q, u, view[u]); }
    }
    hide Agree, View;
  }

  /** A score that no other user holds can be added or moved to. */
  lemma PutRanked(q: Queue, m: Member, score: nat, base: seq<Entry>)
    requires Ranked(base) && forall e | e in base :: e.score != score || UserOf(e.raw) == Some(m.user)
    requires forall e | e in base :: UserOf(e.raw) == Some(m.user) ==> e.raw == Encoded(m)
    ensures Ranked(Add(base, Encoded(m), score))
    ensures forall e :: e in Add(base, Encoded(m), score)
                        <==> (e in base && UserOf(e.raw) != Some(m.user)) || e == Entry(Encoded(m), score)
  {
    AddMeaning(base, Encoded(m), score);
    hide Ranked, Add;
  }

  lemma EnqueueKeeps(q: Queue, m: Member, time: nat)
    requires Agree(q) && ValidMember(m)
    ensures var (q', added, score) := EnqueueTx(q, m, time);
      && Agree(q') && View(q') == EnqueueView(View(q), m, score)
      && (added <==> m.user !in View(q)) && score == View(q')[m.user].score
      && (if added then q.last < score == q'.last else q'.last == q.last)
  {
    var (q', added, score) := EnqueueTx(q, m, time);
    if m.user in q.members {
      ReconnectPuts(q, m, time);
      if q.members[m.user] != Encoded(m) {
        hide EnqueueTx, Agree, Put;
        PutKeeps(q, q', m, score);
      }
    } else {
      ArrivalPuts(q, m, time);
      hide EnqueueTx, Put, EntriesOk, HashOk;
      PutKeeps(q, q', m, score);
    }
  }

  lemma ReconnectPuts(q: Queue, m: Member, time: nat)
    requires Agree(q) && ValidMember(m) && m.user in q.members
    ensures var (q', added, score) := EnqueueTx(q, m, time);
      && !added && q'.last == q.last && Score(q.zset, q.members[m.user]) == Some(score)
      && (if q.members[m.user] == Encoded(m) then q' == q else Put(q, q', m, score) && Ranked(q'.zset))
  {
    var before := q.members[m.user];
    var score := Score(q.zset, before).value;
    RemoveMeaning(q.zset, before);
    assert Entry(before, score) in q.zset;
    forall e | e in q.zset && UserOf(e.raw) == Some(m.user) ensures e.raw == before {}
    forall e | e in q.zset && e.raw != before ensures e.score != score {}
    hide Agree, Ranked;
    PutRanked(q, m, score, Remove(q.zset, before));
  }

  lemma ArrivalPuts(q: Queue, m: Member, time: nat)
    requires Agree(q) && ValidMember(m) && m.user !in q.members
    ensures var (q', added, score) := EnqueueTx(q, m, time);
      added && q.last < score == q'.last && Put(q, q', m, score) && Ranked(q'.zset)
  {
    var score := EnqueueTx(q, m, time).2;
    PutRanked(q, m, score, q.zset);
    hide Ranked, Add;
  }

  lemma DequeueKeeps(q: Queue, m: Member)
    requires Agree(q)
    ensures var (q', removed) := DequeueTx(q, m);
      && Agree(q') && View(q') == DequeueView(View(q), m) && q'.last == q.last
      && (removed <==> m.user in View(q) && View(q)[m.user].member == m)
  {
    var (q', removed) := DequeueTx(q, m);
    if m.user in q.members && q.members[m.user] == Encoded(m) {
      RemoveMeaning(q.zset, Encoded(m));
      DequeuedPart(q, m);
      assert q.members.Keys - q'.members.Keys == {m.user};
      hide Ranked, EntriesOk, Part, Remove;
      SubsetKeeps(q, q');
    }
  }

  lemma DequeuedPart(q: Queue, m: Member)
    requires EntriesOk(q) && m.user in q.members && q.members[m.user] == Encoded(m)
    ensures Part(q, DequeueTx(q, m).0)
  {
    RemoveMeaning(q.zset, Encoded(m));
    hide Remove;
  }

  /** `q'` is `q` without some users, taken out of both structures. */
  ghost predicate Part(q: Queue, q': Queue) {
    && q'.last == q.last
    && (forall e | e in q'.zset :: e in q.zset)
    && (forall u | u in q'.members :: u in q.members && q'.members[u] == q.members[u])
    && (forall e | e in q.zset && WellFormed(e.raw) :: e in q'.zset <==> e.raw.member.user in q'.members)
  }

  lemma PartHash(q: Queue, q': Queue)
    requires HashOk(q) && Part(q, q') && Ranked(q'.zset)
    ensures HashOk(q') && forall u | u in q'.members :: Score(q'.zset, q'.members[u]) == Score(q.zset, q.members[u])
  {
    forall u | u in q'.members
      ensures Score(q'.zset, q'.members[u]).Some? && Score(q'.zset, q'.members[u]) == Score(q.zset, q.members[u])
    {
      var e := Entry(q.members[u], Score(q.zset, q.members[u]).value);
      assert e in q.zset && e in q'.zset;
      ScoreMeaning(q'.zset, e);
    }
    hide Ranked, Score;
  }

  lemma PartEntries(q: Queue, q': Queue)
    requires EntriesOk(q) && Part(q, q')
    ensures EntriesOk(q')
  {
  }

  /** Taking entries and their hash fields out together keeps the agreement. */
  lemma SubsetKeeps(q: Queue, q': Queue)
    requires Agree(q) && Ranked(q'.zset) && Part(q, q')
    ensures Agree(q') && View(q') == View(q) - (q.members.Keys - q'.members.Keys)
  {
    hide Ranked, EntriesOk, Score, Part;
    SubsetAgrees(q, q');
    PartHash(q, q');
    PartMembers(q, q');
  }

  lemma PartMembers(q: Queue, q': Queue)
    requires Part(q, q')
    ensures forall u | u in q'.members :: u in q.members && q'.members[u] == q.members[u]
  {
  }

  lemma SubsetAgrees(q: Queue, q': Queue)
    requires Agree(q) && Ranked(q'.zset) && Part(q, q')
    ensures Agree(q')
  {
    PartHash(q, q');
    PartEntries(q, q');
    hide Ranked, EntriesOk, HashOk, Part, Score;
  }

  lemma RequeueOneKeeps(q: Queue, s: Slot, alive: Presence)
    requires Agree(q) && ValidMember(s.member) && FreeScore(q, s.member.user, s.score)
    ensures var (q', n) := RequeueOne(q, s, alive);
      && Agree(q') && View(q') == RequeueView(View(q), s, alive) && q'.last == q.last
      && (n == 1 <==> View(q') != View(q))
  {
    var (q', n) := RequeueOne(q, s, alive);
    if Present(alive, s.member) && s.member.user !in q.members {
      PutRanked(q, s.member, s.score, q.zset);
      hide Ranked, Add;
      assert Put(q, q', s.member, s.score);
      hide EntriesOk, HashOk, Put;
      PutKeeps(q, q', s.member, s.score);
    }
  }
}
