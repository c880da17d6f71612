// The three Redis keys of the matchmaking queue as mutable state, and the scripts
// as the methods that update them in place.
module RedisScripts {
  import opened Base
  import opened SortedSet
  import opened MatchQueue

  class QueueStore {
    var zset: seq<Entry>               // codeduel:matchmaking:queue, by rank
    var members: map<Uuid, Raw>        // codeduel:matchmaking:members
    var last: nat                      // codeduel:matchmaking:last-score
    const scanLimit: nat

    ghost predicate Valid()
      reads this
    {
      DistinctRaws(zset) && scanLimit > 0
    }

    function State(): Queue
      reads this
    {
      Queue(zset, members, last)
    }

    /** NewQueue over empty keys. */
    constructor (configured: int)
      ensures Valid() && State() == EmptyQueue && scanLimit == ScanLimit(configured)
    {
      zset, members, last := [], map[], 0;
      scanLimit := ScanLimit(configured);
    }

    method Enqueue(m: Member, time: nat) returns (added: bool, score: nat)
      modifies this
      ensures (State(), added, score) == EnqueueTx(old(State()), m, time)
    {
      var raw := Encoded(m);
      if m.user in members {
        var oldMember := members[m.user];
        var oldScore := Score(zset, oldMember);
        if oldScore.Some? {
          if oldMember != raw {
            zset := Remove(zset, oldMember);
            zset := Add(zset, raw, oldScore.value);
            members := members[m.user := raw];
          }
          return false, oldScore.value;
        }
      }
      score := time;
      if score <= last {
        score := last + 1;
      }
      if m.user in members && members[m.user] != raw {
        zset := Remove(zset, members[m.user]);
      }
      zset := Add(zset, raw, score);
      members := members[m.user := raw];
      last := score;
      added := true;
    }

    method Dequeue(m: Member) returns (removed: bool)
      modifies this
      ensures (State(), removed) == DequeueTx(old(State()), m)
    {
      if m.user !in members || members[m.user] != Encoded(m) {
        return false;
      }
      removed := Score(zset, Encoded(m)).Some?;
      zset := Remove(zset, Encoded(m));
      members := members - {m.user};
    }

    /** remove_member of pop_pair.lua. */
    method RemoveMember(raw: Raw, user: Option<Uuid>)
      modifies this`zset, this`members
      ensures user == UserOf(raw) ==> State() == Unlisted(old(State()), raw)
    {
      zset := Remove(zset, raw);
      if user.Some? && user.value in members && members[user.value] == raw {
        members := members - {user.value};
      }
    }

    /** One pass over the window and one over the selection do what `PopTx` says. */
    method PopPair(alive: Presence) returns (pair: seq<Entry>)
      requires Valid()
      modifies this`zset, this`members
      ensures Valid()
      ensures (State(), pair) == PopTx(old(State()), scanLimit, alive)
    {
      ghost var q := State();
      var entries := zset[..Min(scanLimit, |zset|)];
      var selected := ScanWindow(entries, alive);
      ghost var gone := Stale(q, alive, entries);
      ChosenFacts(q, scanLimit, alive);
      assert gone + Raws([]) == gone;
      if |selected| < 2 {
        SweptAll(q, State(), scanLimit, alive);
        return [];
      }
      hide Swept, Chosen, Dropped, Unlisted;
      for i := 0 to |selected|
        invariant Swept(q, State(), gone + Raws(selected[..i]))
      {
        assert Raws(selected[..i + 1]) == Raws(selected[..i]) + {selected[i].raw};
        SweepStep(q, State(), gone + Raws(selected[..i]), selected[i].raw);
        assert gone + Raws(selected[..i + 1]) == gone + Raws(selected[..i]) + {selected[i].raw};
        RemoveMember(selected[i].raw, UserOf(selected[i].raw));
      }
      assert selected[..|selected|] == selected;
      SweptAll(q, State(), scanLimit, alive);
      pair := selected;
    }

    /** The loop over the window: what is not live goes, the first two live stay listed. */
    method ScanWindow(entries: seq<Entry>, alive: Presence) returns (selected: seq<Entry>)
      requires Valid() && entries == Window(State(), scanLimit)
      modifies this`zset, this`members
      ensures Swept(old(State()), State(), Stale(old(State()), alive, entries))
      ensures selected == FirstTwo(Lives(old(State()), alive, entries))
    {
      hide Swept, LiveRaws, Lives, Unlisted, Stale, Remove, DistinctRaws;
      ghost var q := State();
      selected := [];
      NothingSwept(q);
      NothingStale(q, alive);
      assert entries[..0] == [];
      for i := 0 to |entries|
        invariant Swept(q, State(), Stale(q, alive, entries[..i]))
        invariant selected == FirstTwo(Lives(q, alive, entries[..i]))
      {
        var raw := entries[i].raw;
        WindowStep(q, scanLimit, i, alive);
        SweepStep(q, State(), Stale(q, alive, entries[..i]), raw);
        if !WellFormed(raw) {
          RemoveMember(raw, UserOf(raw));
        } else if raw.member.user !in members || members[raw.member.user] != raw {
          zset := Remove(zset, raw);
        } else if !Present(alive, raw.member) {
          RemoveMember(raw, UserOf(raw));
        } else if |selected| < 2 {
          selected := selected + [entries[i]];
        }
      }
      assert entries[..|entries|] == entries;
    }

    /** The loop over the triples. */
    method Requeue(entries: seq<Slot>, alive: Presence) returns (restored: nat)
      modifies this`zset, this`members
      ensures (State(), restored) == RequeueTx(old(State()), entries, alive)
    {
      ghost var q := State();
      restored := 0;
      assert entries[..0] == [];
      for i := 0 to |entries|
        invariant (State(), restored) == RequeueTx(q, entries[..i], alive)
      {
        var s := entries[i];
        var raw := Encoded(s.member);
        RequeueSnoc(q, entries[..i], s, alive);
        assert entries[..i + 1] == entries[..i] + [s];
        if Present(alive, s.member) {
          if s.member.user !in members {
            zset := Add(zset, raw, s.score);
            members := members[s.member.user := raw];
            restored := restored + 1;
          } else if members[s.member.user] == raw && Score(zset, raw).None? {
            zset := Add(zset, raw, s.score);
            restored := restored + 1;
          }
        }
      }
      assert entries[..|entries|] == entries;
    }
  }

  function FirstTwo(z: seq<Entry>): seq<Entry> {
    z[..Min(2, |z|)]
  }

  /** `now` is `q` after dropping the members in `gone`. */
  ghost predicate Swept(q: Queue, now: Queue, gone: set<Raw>) {
    now == Queue(Filter(q.zset, Raws(q.zset) - gone), Forget(q.members, gone), q.last)
  }

  /** The queue after one `remove_member`. */
  function Unlisted(q: Queue, raw: Raw): Queue {
    Queue(Remove(q.zset, raw),
          if UserOf(raw).Some? && UserOf(raw).value in q.members && q.members[UserOf(raw).value] == raw
          then q.members - {UserOf(raw).value} else q.members,
          q.last)
  }

  lemma NothingSwept(q: Queue)
    ensures Swept(q, q, {})
  {
    FilterAll(q.zset, Raws(q.zset) - {});
  }

  lemma SweptAll(q: Queue, now: Queue, limit: nat, alive: Presence)
    requires DistinctRaws(q.zset) && Swept(q, now, Dropped(q, limit, alive))
    ensures now == PopTx(q, limit, alive).0 && DistinctRaws(now.zset)
  {
    FilterKeeps(q.zset, Raws(q.zset) - Dropped(q, limit, alive));
  }

  /** What a scan of `z` throws out. */
  function Stale(q: Queue, alive: Presence, z: seq<Entry>): set<Raw> {
    Raws(z) - LiveRaws(q, alive)
  }

  lemma NothingStale(q: Queue, alive: Presence)
    ensures Stale(q, alive, []) == {} && FirstTwo(Lives(q, alive, [])) == []
  {
  }

  lemma WindowStep(q: Queue, limit: nat, i: nat, alive: Presence)
    requires DistinctRaws(q.zset) && i < |Window(q, limit)|
    ensures var w := Window(q, limit);
      var raw := w[i].raw;
      && raw !in Stale(q, alive, w[..i])
      && Stale(q, alive, w[..i + 1])
         == (if Live(q, alive, raw) then Stale(q, alive, w[..i]) else Stale(q, alive, w[..i]) + {raw})
      && Lives(q, alive, w[..i + 1]) == Lives(q, alive, w[..i]) + if Live(q, alive, raw) then [w[i]] else []
  {
    var w := Window(q, limit);
    assert w[i] == q.zset[i] && w[i] in q.zset;
    assert w[..i + 1] == w[..i] + [w[i]];
    FilterConcat(w[..i], [w[i]], LiveRaws(q, alive));
    assert Raws(w[..i + 1]) == Raws(w[..i]) + {w[i].raw};
    forall e | e in w[..i] ensures e.raw != w[i].raw {
      var j :| 0 <= j < i && w[j] == e;
      assert q.zset[j] == e;
    }
  }

  /** The selection is the chosen pair, and no selected member is stale or listed twice. */
  lemma ChosenFacts(q: Queue, limit: nat, alive: Presence)
    requires DistinctRaws(q.zset)
    ensures var w := Window(q, limit);
      var pair := FirstTwo(Lives(q, alive, w));
      && Chosen(q, limit, alive) == (if |pair| < 2 then [] else pair)
      && Dropped(q, limit, alive) == Stale(q, alive, w) + Raws(if |pair| < 2 then [] else pair)
      && (forall i | 0 <= i < |pair| :: pair[i].raw !in Stale(q, alive, w) + Raws(pair[..i]))
  {
    var w := Window(q, limit);
    var pair := FirstTwo(Lives(q, alive, w));
    FilterMeaning(w, LiveRaws(q, alive));
    forall i, j | 0 <= i < j < |w| ensures w[i].raw != w[j].raw { assert w[i] == q.zset[i] && w[j] == q.zset[j]; }
    FilterKeeps(w, LiveRaws(q, alive));
    forall i | 0 <= i < |pair| ensures pair[i].raw !in Stale(q, alive, w) + Raws(pair[..i]) {
      assert pair[i] == Lives(q, alive, w)[i];
    }
  }

  /** Removing one more member from both structures; a member its user does not map
      to only leaves the sorted set. */
  lemma SweepStep(q: Queue, now: Queue, gone: set<Raw>, raw: Raw)
    requires Swept(q, now, gone) && raw !in gone
    ensures Swept(q, Unlisted(now, raw), gone + {raw})
    ensures !(UserOf(raw).Some? && UserOf(raw).value in now.members && now.members[UserOf(raw).value] == raw)
            ==> Swept(q, now.(zset := Remove(now.zset, raw)), gone + {raw})
    ensures (UserOf(raw).Some? && UserOf(raw).value in now.members && now.members[UserOf(raw).value] == raw)
            <==> (UserOf(raw).Some? && UserOf(raw).value in q.members && q.members[UserOf(raw).value] == raw)
  {
    RemoveFiltered(q.zset, Raws(q.zset) - gone, raw);
    assert Raws(q.zset) - gone - {raw} == Raws(q.zset) - (gone + {raw});
  }

  lemma {:induction false} RequeueSnoc(q: Queue, entries: seq<Slot>, s: Slot, alive: Presence)
    ensures var (q', n) := RequeueTx(q, entries, alive);
      var (q'', k) := RequeueOne(q', s, alive);
      RequeueTx(q, entries + [s], alive) == (q'', n + k)
    decreases |entries|
  {
    if entries == [] {
      var (q', k) := RequeueOne(q, s, alive);
      assert (entries + [s])[1..] == [] && RequeueTx(q', [], alive) == (q', 0);
    } else {
      var all := entries + [s];
      assert all[0] == entries[0] && all[1..] == entries[1..] + [s];
      RequeueSnoc(RequeueOne(q, entries[0], alive).0, entries[1..], s, alive);
    }
  }
}
