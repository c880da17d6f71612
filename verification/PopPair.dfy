// What pop_pair.lua achieves: although it looks at a window only, it returns the
// two oldest live members of the whole queue and removes no other live one.
module PopPair {
  import opened Base
  import opened SortedSet
  import opened MatchQueue

  lemma LivesSplit(q: Queue, alive: Presence, limit: nat)
    ensures Lives(q, alive, q.zset)
        == Lives(q, alive, Window(q, limit)) + Lives(q, alive, q.zset[Min(limit, |q.zset|)..])
  {
    var k := Min(limit, |q.zset|);
    assert q.zset == q.zset[..k] + q.zset[k..];
    FilterConcat(q.zset[..k], q.zset[k..], LiveRaws(q, alive));
  }

  /** The chosen pair is the front of all live members, not just of the window. */
  lemma ChosenIsOldest(q: Queue, limit: nat, alive: Presence)
    ensures var pair := Chosen(q, limit, alive);
      && (pair != [] ==> |pair| == 2 && |Lives(q, alive, q.zset)| >= 2)
      && pair == Lives(q, alive, q.zset)[..|pair|]
  {
    LivesSplit(q, alive, limit);
    hide Lives;
  }

  lemma DropFront(z: seq<Entry>, k: nat, some: set<Raw>)
    requires DistinctRaws(z) && k <= |z| && Raws(z) <= some
    ensures Filter(z, some - Raws(z[..k])) == z[k..]
  {
    var keep := some - Raws(z[..k]);
    assert z == z[..k] + z[k..];
    FilterConcat(z[..k], z[k..], keep);
    forall e | e in z[..k] ensures e.raw !in keep { assert e.raw in Raws(z[..k]); }
    forall e | e in z[k..] ensures e.raw in keep {
      var j :| 0 <= j < |z| - k && z[k..][j] == e;
      assert z[k + j] == e && e.raw in Raws(z);
    }
    FilterNone(z[..k], keep);
    FilterAll(z[k..], keep);
  }

  /** Among the members that stay, a pop changes nobody's liveness. */
  lemma LivenessKept(q: Queue, limit: nat, alive: Presence)
    ensures var (q', pair) := PopTx(q, limit, alive);
      (Raws(q.zset) - Dropped(q, limit, alive)) * LiveRaws(q', alive) == LiveRaws(q, alive) - Raws(pair)
  {
    var (q', pair) := PopTx(q, limit, alive);
    var stay := Raws(q.zset) - Dropped(q, limit, alive);
    FilterMeaning(q.zset, stay);
    ChosenAreLive(q, limit, alive);
    forall r ensures r in stay * LiveRaws(q', alive) <==> r in LiveRaws(q, alive) - Raws(pair) {
      if r in LiveRaws(q, alive) - Raws(pair) {
        var e :| e in q.zset && Live(q, alive, e.raw) && e.raw == r;
        assert r in stay && e in q'.zset && Live(q', alive, r);
      }
      if r in stay * LiveRaws(q', alive) {
        assert r !in Raws(pair) && r in Raws(q.zset) && Live(q', alive, r) && Live(q, alive, r);
      }
    }
  }

  lemma ChosenAreLive(q: Queue, limit: nat, alive: Presence)
    ensures forall e | e in Chosen(q, limit, alive) :: e in q.zset && Live(q, alive, e.raw)
    ensures Raws(Chosen(q, limit, alive)) <= LiveRaws(q, alive)
  {
    var w := Window(q, limit);
    FilterMeaning(w, LiveRaws(q, alive));
    forall e | e in Chosen(q, limit, alive) ensures e in q.zset && Live(q, alive, e.raw) {
      assert e in Lives(q, alive, w) && e in w && e.raw in LiveRaws(q, alive);
    }
  }

  /** The live members before a pop are the pair followed by the live members after. */
  lemma PopConserves(q: Queue, limit: nat, alive: Presence)
    requires DistinctRaws(q.zset)
    ensures var (q', pair) := PopTx(q, limit, alive);
      Lives(q, alive, q.zset) == pair + Lives(q', alive, q'.zset)
  {
    var (q', pair) := PopTx(q, limit, alive);
    var stay, live := Raws(q.zset) - Dropped(q, limit, alive), LiveRaws(q, alive);
    var all := Lives(q, alive, q.zset);
    ChosenIsOldest(q, limit, alive);
    LivenessKept(q, limit, alive);
    FilterTwice(q.zset, stay, LiveRaws(q', alive));
    FilterTwice(q.zset, live, live - Raws(pair));
    assert live * (live - Raws(pair)) == live - Raws(pair);
    FilterKeeps(q.zset, live);
    FilterMeaning(q.zset, live);
    assert Raws(all) <= live;
    DropFront(all, |pair|, live);
    hide Dropped, LiveRaws, Filter, Raws, DistinctRaws, Chosen;
  }

  /** Two live members are two different users. */
  lemma PairDistinct(q: Queue, limit: nat, alive: Presence)
    requires DistinctRaws(q.zset)
    ensures var pair := PopTx(q, limit, alive).1;
      |pair| == 2 ==> pair[0].raw.Encoded? && pair[1].raw.Encoded? && pair[0].raw.member.user != pair[1].raw.member.user
  {
    var pair := Chosen(q, limit, alive);
    if |pair| == 2 {
      ChosenAreLive(q, limit, alive);
      ChosenIsOldest(q, limit, alive);
      FilterKeeps(q.zset, LiveRaws(q, alive));
      assert pair[0] in pair && pair[1] in pair;
      assert pair[0] == Lives(q, alive, q.zset)[0] && pair[1] == Lives(q, alive, q.zset)[1];
      hide Chosen, LiveRaws, Filter;
    }
  }

  lemma DistinctFromRanked(z: seq<Entry>)
    requires Ranked(z)
    ensures DistinctRaws(z)
  {
  }

  /** Whatever the members to drop: they leave both structures together. */
  lemma DropPart(q: Queue, gone: set<Raw>)
    requires EntriesOk(q)
    ensures Part(q, Queue(Filter(q.zset, Raws(q.zset) - gone), Forget(q.members, gone), q.last))
  {
    FilterMeaning(q.zset, Raws(q.zset) - gone);
    forall e | e in q.zset && WellFormed(e.raw)
      ensures e in Filter(q.zset, Raws(q.zset) - gone) <==> e.raw.member.user in Forget(q.members, gone)
    {
      assert e.raw in Raws(q.zset) && q.members[e.raw.member.user] == e.raw;
    }
    hide Filter, Raws;
  }

  lemma DropView(q: Queue, gone: set<Raw>)
    requires Agree(q)
    ensures View(q) - (q.members.Keys - Forget(q.members, gone).Keys)
         == map u | u in View(q) && Encoded(View(q)[u].member) !in gone :: View(q)[u]
  {
  }

  /** A pop keeps sorted set and hash in step: exactly the users whose entry is
      dropped leave both. */
  lemma PopKeeps(q: Queue, limit: nat, alive: Presence)
    requires Agree(q)
    ensures var (q', pair) := PopTx(q, limit, alive);
      && Agree(q') && q'.last == q.last
      && View(q') == map u | u in View(q) && Encoded(View(q)[u].member) !in Dropped(q, limit, alive) :: View(q)[u]
  {
    var (q', pair) := PopTx(q, limit, alive);
    var gone := Dropped(q, limit, alive);
    assert EntriesOk(q) && Ranked(q.zset);
    hide Agree, Ranked, EntriesOk, Dropped, Filter, Raws, Forget, Part, View, Chosen;
    FilterKeeps(q.zset, Raws(q.zset) - gone);
    DropPart(q, gone);
    DropView(q, gone);
    SubsetKeeps(q, q');
  }

  // --------------------------------------------------------------------- progress

  /** Popping until a pair appears or nothing is left to remove, counting the calls. */
  function PopUntil(q: Queue, limit: nat, alive: Presence): (Queue, seq<Entry>, nat)
    decreases |q.zset|
  {
    var (q', pair) := PopTx(q, limit, alive);
    if pair != [] || |q'.zset| >= |q.zset| then (q', pair, 1)
    else
      var (q'', found, calls) := PopUntil(q', limit, alive);
      (q'', found, calls + 1)
  }

  /** A call that finds no pair although two members are live removes something. */
  lemma EmptyPopShrinks(q: Queue, limit: nat, alive: Presence)
    requires DistinctRaws(q.zset) && limit >= 2 && |Lives(q, alive, q.zset)| >= 2
    requires PopTx(q, limit, alive).1 == []
    ensures |PopTx(q, limit, alive).0.zset| < |q.zset|
  {
    var w := Window(q, limit);
    var live := LiveRaws(q, alive);
    FilterMeaning(q.zset, live);
    FilterMeaning(w, live);
    assert |w| >= 2 && |Filter(w, live)| < 2;
    if forall e | e in w :: e.raw in live { FilterAll(w, live); }
    var e :| e in w && e.raw !in live;
    assert e.raw in Dropped(q, limit, alive) && e in q.zset;
    FilterMeaning(q.zset, Raws(q.zset) - Dropped(q, limit, alive));
  }

  /** With a scan limit of at least 2, unchanged presence and two live members, the
      two oldest come out, whatever stale or malformed members are in the way: after
      fewer calls than the queue has entries, since two of them are live. */
  lemma {:induction false} PairsComeOut(q: Queue, limit: nat, alive: Presence)
    requires DistinctRaws(q.zset) && limit >= 2 && |Lives(q, alive, q.zset)| >= 2
    ensures var (q', pair, calls) := PopUntil(q, limit, alive);
      && pair == Lives(q, alive, q.zset)[..2] && Lives(q', alive, q'.zset) == Lives(q, alive, q.zset)[2..]
      && 1 <= calls < |q.zset|
    decreases |q.zset|
  {
    var (q', pair) := PopTx(q, limit, alive);
    PopConserves(q, limit, alive);
    ChosenIsOldest(q, limit, alive);
    FilterMeaning(q.zset, LiveRaws(q, alive));
    if pair == [] {
      EmptyPopShrinks(q, limit, alive);
      FilterKeeps(q.zset, Raws(q.zset) - Dropped(q, limit, alive));
      hide Lives, PopTx, DistinctRaws, Chosen;
      PairsComeOut(q', limit, alive);
    }
  }

  /** A scan limit of 1 never yields a pair. */
  lemma LimitOneStarves(q: Queue, alive: Presence)
    ensures PopTx(q, 1, alive).1 == []
  {
    FilterMeaning(Window(q, 1), LiveRaws(q, alive));
  }
}
