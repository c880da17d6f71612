// What each script does to any keys, whether sorted set and hash agree or not: which
// entries and fields it writes, and what it answers.
module AnyKeys {
  import opened Base
  import opened SortedSet
  import opened MatchQueue

  /** The sorted set lists the member. */
  predicate Listed(q: Queue, raw: Raw) {
    exists e :: e in q.zset && e.raw == raw
  }

  lemma ScoredIff(q: Queue, raw: Raw)
    ensures Score(q.zset, raw).Some? <==> Listed(q, raw)
  {
    if e :| e in q.zset && e.raw == raw { Scored(q.zset, e); }
  }

  /** enqueue.lua: a user whose stored member is listed keeps the score, under the new
      member; anyone else gets the server time, or one more than the last score if that
      is no later. */
  lemma EnqueueExactly(q: Queue, m: Member, time: nat)
    ensures var (q', added, score) := EnqueueTx(q, m, time);
      var known := m.user in q.members && Listed(q, q.members[m.user]);
      && (added <==> !known)
      && (known ==> Entry(q.members[m.user], score) in q.zset && q'.last == q.last)
      && (!known ==> score == (if time <= q.last then q.last + 1 else time) && q'.last == score)
      && q'.members == q.members[m.user := Encoded(m)]
      && (known && q.members[m.user] == Encoded(m) ==> q'.zset == q.zset)
      && (!(known && q.members[m.user] == Encoded(m)) ==>
            forall e :: e in q'.zset <==>
              || e == Entry(Encoded(m), score)
              || (e in q.zset && e.raw != Encoded(m) && !(m.user in q.members && e.raw == q.members[m.user])))
  {
    hide Add, Remove, Score, Listed;
    if m.user in q.members {
      ScoredIff(q, q.members[m.user]);
      RemoveMeaning(q.zset, q.members[m.user]);
      var rest := Remove(q.zset, q.members[m.user]);
      AddMeaning(rest, Encoded(m), EnqueueTx(q, m, time).2);
    }
    AddMeaning(q.zset, Encoded(m), EnqueueTx(q, m, time).2);
  }

  /** dequeue.lua: only a field that holds exactly this member is removed, together with
      its entry; the answer is whether there was one. */
  lemma DequeueExactly(q: Queue, m: Member)
    ensures var (q', removed) := DequeueTx(q, m);
      var current := m.user in q.members && q.members[m.user] == Encoded(m);
      && q'.last == q.last
      && (!current ==> q' == q && !removed)
      && (current ==> q'.members == q.members - {m.user} && (removed <==> Listed(q, Encoded(m))))
      && (current ==> forall e :: e in q'.zset <==> e in q.zset && e.raw != Encoded(m))
  {
    ScoredIff(q, Encoded(m));
    RemoveMeaning(q.zset, Encoded(m));
  }

  /** One triple of requeue.lua: a present user without a field, or with this very field
      and no entry, gets the entry at the old score; nobody else is touched. */
  lemma RequeueExactly(q: Queue, s: Slot, alive: Presence)
    ensures var (q', n) := RequeueOne(q, s, alive);
      var raw := Encoded(s.member);
      var restores := (s.member.user, s.member.conn) in alive
        && (s.member.user !in q.members || (q.members[s.member.user] == raw && !Listed(q, raw)));
      && n == (if restores then 1 else 0) && q'.last == q.last
      && (!restores ==> q' == q)
      && (restores ==> q'.members == q.members[s.member.user := raw])
      && (restores ==>
            forall e :: e in q'.zset <==> e == Entry(raw, s.score) || (e in q.zset && e.raw != raw))
  {
    hide Add, Score;
    ScoredIff(q, Encoded(s.member));
    AddMeaning(q.zset, Encoded(s.member), s.score);
  }

  /** The entry is that of a valid member who is its user's current one and connected. */
  predicate Good(q: Queue, alive: Presence, e: Entry) {
    match e.raw
    case Malformed(_, _) => false
    case Encoded(m) =>
      m.user != NIL && m.conn != NIL && m.user in q.members && q.members[m.user] == e.raw && (m.user, m.conn) in alive
  }

  lemma GoodIffLive(q: Queue, alive: Presence, e: Entry)
    ensures e in q.zset && Good(q, alive, e) ==> e.raw in LiveRaws(q, alive)
    ensures e.raw in LiveRaws(q, alive) ==> Good(q, alive, e)
  {
  }

  /** pop_pair.lua removes from the sorted set exactly the window's bad entries and the
      pair, and from the hash the fields that point at them; the pair is two good
      entries, or nothing if the window has fewer. */
  lemma PopExactly(q: Queue, limit: nat, alive: Presence)
    requires DistinctRaws(q.zset)
    ensures var (q', pair) := PopTx(q, limit, alive);
      && q'.last == q.last
      && (forall i | 0 <= i < |q.zset| ::
            q.zset[i] in q'.zset <==> !(i < limit && !Good(q, alive, q.zset[i])) && q.zset[i] !in pair)
      && (forall e | e in q'.zset :: e in q.zset)
      && (forall u :: u in q'.members <==>
            u in q.members && !(exists e :: e in q.zset && e !in q'.zset && UserOf(e.raw) == Some(u)
                                            && e.raw == q.members[u]))
      && (forall u | u in q'.members :: q'.members[u] == q.members[u])
      && (forall e | e in pair :: e in Window(q, limit) && Good(q, alive, e))
  {
    var (q', pair) := PopTx(q, limit, alive);
    var gone := Dropped(q, limit, alive);
    hide DistinctRaws, Dropped, Filter, Chosen, LiveRaws, Good;
    FilterMeaning(q.zset, Raws(q.zset) - gone);
    ChosenInWindow(q, limit, alive);
    forall i | 0 <= i < |q.zset|
      ensures q.zset[i] in q'.zset <==> !(i < limit && !Good(q, alive, q.zset[i])) && q.zset[i] !in pair
    {
      DroppedIff(q, limit, alive, i);
    }
    forall e | e in pair ensures e in Window(q, limit) && Good(q, alive, e) { GoodIffLive(q, alive, e); }
    forall u ensures u in q'.members <==>
        u in q.members
        && !(exists e :: e in q.zset && e !in q'.zset && UserOf(e.raw) == Some(u) && e.raw == q.members[u])
    {
      if u in q.members && q.members[u] in gone && UserOf(q.members[u]) == Some(u) {
        DroppedAreListed(q, limit, alive);
        var e :| e in q.zset && e.raw == q.members[u];
        assert e !in q'.zset;
      }
    }
  }

  lemma DroppedAreListed(q: Queue, limit: nat, alive: Presence)
    ensures Dropped(q, limit, alive) <= Raws(q.zset)
  {
    ChosenInWindow(q, limit, alive);
    hide Chosen, LiveRaws;
  }

  lemma ChosenInWindow(q: Queue, limit: nat, alive: Presence)
    ensures forall e | e in Chosen(q, limit, alive) :: e in Window(q, limit) && e.raw in LiveRaws(q, alive)
    ensures forall e | e in Window(q, limit) :: e in q.zset
  {
    FilterMeaning(Window(q, limit), LiveRaws(q, alive));
    hide Filter, LiveRaws;
  }

  /** Which entries are dropped, by rank. */
  lemma DroppedIff(q: Queue, limit: nat, alive: Presence, i: nat)
    requires DistinctRaws(q.zset) && i < |q.zset|
    ensures q.zset[i].raw in Dropped(q, limit, alive)
      <==> (i < limit && !Good(q, alive, q.zset[i])) || q.zset[i] in Chosen(q, limit, alive)
  {
    var w, e := Window(q, limit), q.zset[i];
    ChosenInWindow(q, limit, alive);
    GoodIffLive(q, alive, e);
    hide LiveRaws, Chosen, Good;
    if e.raw in Raws(w) {
      var f :| f in w && f.raw == e.raw;
      SameEntry(q, limit, f, i);
    }
    if i < limit { assert w[i] == e; }
    if e.raw in Raws(Chosen(q, limit, alive)) {
      var f :| f in Chosen(q, limit, alive) && f.raw == e.raw;
      SameEntry(q, limit, f, i);
    }
  }

  lemma SameEntry(q: Queue, limit: nat, f: Entry, i: nat)
    requires DistinctRaws(q.zset) && i < |q.zset| && f in Window(q, limit) && f.raw == q.zset[i].raw
    ensures f == q.zset[i] && i < limit
  {
    var j :| 0 <= j < |Window(q, limit)| && Window(q, limit)[j] == f;
    assert q.zset[j] == f;
  }

  /** The pair is the first two good entries of the window: no other good one stands
      before the second, and there is none as soon as the window has two. */
  lemma PairExactly(q: Queue, limit: nat, alive: Presence)
    requires DistinctRaws(q.zset)
    ensures var pair := PopTx(q, limit, alive).1;
      if exists i: nat, j: nat :: TwoGood(q, limit, alive, i, j) then
        exists i: nat, j: nat :: && TwoGood(q, limit, alive, i, j) && pair == [q.zset[i], q.zset[j]]
                       && forall k | 0 <= k < j && k != i :: !Good(q, alive, q.zset[k])
      else
        pair == []
  {
    hide LiveRaws, Good, PopTx, DistinctRaws, Filter;
    var w, some := Window(q, limit), LiveRaws(q, alive);
    WindowLives(q, limit, alive);
    if |Filter(w, some)| >= 2 {
      FrontTwo(q, limit, alive);
    } else if i: nat, j: nat :| TwoGood(q, limit, alive, i, j) {
      TwoKept(w, some, i, j);
    }
  }

  lemma WindowLives(q: Queue, limit: nat, alive: Presence)
    ensures var w := Window(q, limit);
      && (forall e | e in w :: e.raw in LiveRaws(q, alive) <==> Good(q, alive, e))
      && PopTx(q, limit, alive).1
         == if |Filter(w, LiveRaws(q, alive))| >= 2 then Filter(w, LiveRaws(q, alive))[..2] else []
  {
    hide LiveRaws, Good, Filter;
    forall e | e in Window(q, limit) ensures e.raw in LiveRaws(q, alive) <==> Good(q, alive, e) {
      GoodIffLive(q, alive, e);
    }
  }

  lemma FrontTwo(q: Queue, limit: nat, alive: Presence)
    requires |Filter(Window(q, limit), LiveRaws(q, alive))| >= 2
    ensures exists i: nat, j: nat ::
        && TwoGood(q, limit, alive, i, j)
        && Filter(Window(q, limit), LiveRaws(q, alive))[..2] == [q.zset[i], q.zset[j]]
        && forall k | 0 <= k < j && k != i :: !Good(q, alive, q.zset[k])
  {
    hide LiveRaws, Good, PopTx, Filter;
    var w, some := Window(q, limit), LiveRaws(q, alive);
    WindowLives(q, limit, alive);
    var i := FirstIn(w, some);
    var j := FirstIn(w[i + 1..], some);
    assert w[i + 1..][j] == w[i + 1 + j];
    assert TwoGood(q, limit, alive, i, i + 1 + j);
    forall k | 0 <= k < i + 1 + j && k != i ensures !Good(q, alive, q.zset[k]) {
      assert q.zset[k] == w[k];
      if k > i { assert w[i + 1..][k - i - 1] == w[k]; }
    }
  }

  ghost predicate TwoGood(q: Queue, limit: nat, alive: Presence, i: nat, j: nat) {
    i < j < limit && j < |q.zset| && Good(q, alive, q.zset[i]) && Good(q, alive, q.zset[j])
  }

  /** The front of a selection, and what is left of it. */
  lemma {:induction false} FirstIn(z: seq<Entry>, some: set<Raw>) returns (i: nat)
    requires Filter(z, some) != []
    ensures i < |z| && z[i].raw in some && forall k | 0 <= k < i :: z[k].raw !in some
    ensures Filter(z, some) == [z[i]] + Filter(z[i + 1..], some)
  {
    if z[0].raw in some {
      i := 0;
    } else {
      var j := FirstIn(z[1..], some);
      i := j + 1;
      assert z[1..][j + 1..] == z[i + 1..];
      forall k | 0 <= k < i ensures z[k].raw !in some { if k > 0 { assert z[1..][k - 1] == z[k]; } }
    }
  }

  lemma TwoKept(z: seq<Entry>, some: set<Raw>, i: nat, j: nat)
    requires i < j < |z| && z[i].raw in some && z[j].raw in some
    ensures |Filter(z, some)| >= 2
  {
    assert z == z[..i + 1] + z[i + 1..];
    FilterConcat(z[..i + 1], z[i + 1..], some);
    FilterMeaning(z[..i + 1], some);
    FilterMeaning(z[i + 1..], some);
    assert z[..i + 1][i] == z[i] && z[i + 1..][j - i - 1] == z[j];
    assert z[i] in Filter(z[..i + 1], some) && z[j] in Filter(z[i + 1..], some);
  }
}
