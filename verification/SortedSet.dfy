// The sorted set and the encoded members that internal/redisx keeps in it: a
// sequence in rank order, as ZRANGE sees it.
module SortedSet {
  import opened Base

  /** QueueMember; the presence key and the route are built from `user` and `conn`. */
  datatype Member = Member(user: Uuid, conn: Uuid, rating: int)

  /** A queued string: the encoding of a member, or text that does not decode to a
      valid one (`user` is its user_id field, if it has one). */
  datatype Raw = Encoded(member: Member) | Malformed(user: Option<Uuid>, text: nat)

  datatype Entry = Entry(raw: Raw, score: nat)

  /** QueueMember.Validate. */
  predicate ValidMember(m: Member) {
    m.user != NIL && m.conn != NIL
  }

  predicate WellFormed(raw: Raw) {
    raw.Encoded? && ValidMember(raw.member)
  }

  function UserOf(raw: Raw): Option<Uuid> {
    match raw
    case Encoded(m) => Some(m.user)
    case Malformed(user, _) => user
  }

  /** The order of equal scores; any fixed order of the texts would do. */
  predicate TextBefore(a: Raw, b: Raw) {
    match (a, b)
    case (Malformed(_, s), Malformed(_, t)) => s < t
    case (Malformed(_, _), Encoded(_)) => true
    case (Encoded(_), Malformed(_, _)) => false
    case (Encoded(m), Encoded(n)) =>
      m.user < n.user || (m.user == n.user && (m.conn < n.conn || (m.conn == n.conn && m.rating < n.rating)))
  }

  predicate RankBefore(a: Entry, b: Entry) {
    a.score < b.score || (a.score == b.score && TextBefore(a.raw, b.raw))
  }

  /** ZSCORE. */
  function Score(z: seq<Entry>, raw: Raw): (s: Option<nat>)
    ensures s.Some? ==> Entry(raw, s.value) in z
  {
    if z == [] then None
    else if z[0].raw == raw then Some(z[0].score)
    else
      var s := Score(z[1..], raw);
      assert s.Some? ==> exists i | 0 <= i < |z| - 1 :: z[1..][i] == z[i + 1] && z[i + 1] == Entry(raw, s.value);
      s
  }

  lemma {:induction false} Scored(z: seq<Entry>, e: Entry)
    requires e in z
    ensures Score(z, e.raw).Some?
  {
    if z[0].raw != e.raw {
      assert e in z[1..] by { assert z == [z[0]] + z[1..]; }
      Scored(z[1..], e);
    }
  }

  /** ZREM. */
  function Remove(z: seq<Entry>, raw: Raw): seq<Entry> {
    if z == [] then []
    else if z[0].raw == raw then Remove(z[1..], raw)
    else [z[0]] + Remove(z[1..], raw)
  }

  /** Placing an entry at its rank. */
  function Insert(z: seq<Entry>, e: Entry): seq<Entry> {
    if z == [] || RankBefore(e, z[0]) then [e] + z else [z[0]] + Insert(z[1..], e)
  }

  /** ZADD: insert, or move an existing member to its new score. */
  function Add(z: seq<Entry>, raw: Raw, score: nat): seq<Entry> {
    Insert(Remove(z, raw), Entry(raw, score))
  }

  /** No member twice, scores strictly increasing with rank. */
  ghost predicate Ranked(z: seq<Entry>) {
    forall i, j | 0 <= i < j < |z| :: z[i].score < z[j].score && z[i].raw != z[j].raw
  }

  lemma RankedCons(e: Entry, z: seq<Entry>)
    ensures Ranked([e] + z) <==> Ranked(z) && forall f | f in z :: e.score < f.score && e.raw != f.raw
  {
    var all := [e] + z;
    if Ranked(all) {
      forall i, j | 0 <= i < j < |z| ensures z[i].score < z[j].score && z[i].raw != z[j].raw {
        assert all[i + 1] == z[i] && all[j + 1] == z[j];
      }
      forall f | f in z ensures e.score < f.score && e.raw != f.raw {
        var i :| 0 <= i < |z| && z[i] == f;
        assert all[i + 1] == f && all[0] == e;
      }
    }
    if Ranked(z) && forall f | f in z :: e.score < f.score && e.raw != f.raw {
      forall i, j | 0 <= i < j < |all| ensures all[i].score < all[j].score && all[i].raw != all[j].raw {
        assert all[j] == z[j - 1] && all[j] in z;
      }
    }
  }

  lemma {:induction false} RemoveMeaning(z: seq<Entry>, raw: Raw)
    ensures forall e :: e in Remove(z, raw) <==> e in z && e.raw != raw
    ensures Ranked(z) ==> Ranked(Remove(z, raw))
    ensures (forall e | e in z :: e.raw != raw) ==> Remove(z, raw) == z
  {
    if z != [] {
      assert z == [z[0]] + z[1..];
      RemoveMeaning(z[1..], raw);
      RankedCons(z[0], z[1..]);
      RankedCons(z[0], Remove(z[1..], raw));
      hide Ranked;
    }
  }

  lemma {:induction false} InsertMeaning(z: seq<Entry>, e: Entry)
    ensures forall f :: f in Insert(z, e) <==> f in z || f == e
    ensures Ranked(z) && (forall f | f in z :: f.score != e.score && f.raw != e.raw) ==> Ranked(Insert(z, e))
  {
    RankedCons(e, z);
    if z != [] {
      assert z == [z[0]] + z[1..];
      InsertMeaning(z[1..], e);
      RankedCons(z[0], z[1..]);
      RankedCons(z[0], Insert(z[1..], e));
      hide Ranked;
    }
  }

  /** ZADD at a score nobody else has keeps the set ranked. */
  lemma AddMeaning(z: seq<Entry>, raw: Raw, score: nat)
    ensures forall f :: f in Add(z, raw, score) <==> (f in z && f.raw != raw) || f == Entry(raw, score)
    ensures Ranked(z) && (forall f | f in z && f.raw != raw :: f.score != score) ==> Ranked(Add(z, raw, score))
  {
    RemoveMeaning(z, raw);
    InsertMeaning(Remove(z, raw), Entry(raw, score));
  }

  lemma ScoreMeaning(z: seq<Entry>, e: Entry)
    requires Ranked(z) && e in z
    ensures Score(z, e.raw) == Some(e.score)
  {
  }

  // ------------------------------------------------------------------- selections

  ghost predicate DistinctRaws(z: seq<Entry>) {
    forall i, j | 0 <= i < j < |z| :: z[i].raw != z[j].raw
  }

  /** The entries whose member is in `some`, in rank order. */
  function Filter(z: seq<Entry>, some: set<Raw>): seq<Entry> {
    if z == [] then []
    else (if z[0].raw in some then [z[0]] else []) + Filter(z[1..], some)
  }

  function Raws(z: seq<Entry>): set<Raw> {
    set e | e in z :: e.raw
  }

  lemma {:induction false} FilterMeaning(z: seq<Entry>, some: set<Raw>)
    ensures forall e :: e in Filter(z, some) <==> e in z && e.raw in some
    ensures |Filter(z, some)| <= |z|
    ensures |Filter(z, some)| == |z| ==> Filter(z, some) == z
    ensures (exists e :: e in z && e.raw !in some) ==> |Filter(z, some)| < |z|
  {
    if z != [] {
      FilterMeaning(z[1..], some);
      assert z == [z[0]] + z[1..];
    }
  }

  lemma {:induction false} FilterAll(z: seq<Entry>, some: set<Raw>)
    requires forall e | e in z :: e.raw in some
    ensures Filter(z, some) == z
  {
    if z != [] { FilterAll(z[1..], some); }
  }

  lemma {:induction false} FilterNone(z: seq<Entry>, some: set<Raw>)
    requires forall e | e in z :: e.raw !in some
    ensures Filter(z, some) == []
  {
    if z != [] { FilterNone(z[1..], some); }
  }

  lemma {:induction false} FilterConcat(y: seq<Entry>, z: seq<Entry>, some: set<Raw>)
    ensures Filter(y + z, some) == Filter(y, some) + Filter(z, some)
  {
    if y == [] {
      assert y + z == z;
    } else {
      var first := if y[0].raw in some then [y[0]] else [];
      var rest := Filter(y[1..], some);
      FilterConcat(y[1..], z, some);
      assert (y + z)[1..] == y[1..] + z && (y + z)[0] == y[0];
      assert Filter(y + z, some) == first + Filter(y[1..] + z, some);
      assert first + (rest + Filter(z, some)) == (first + rest) + Filter(z, some);
    }
  }

  lemma {:induction false} FilterTwice(z: seq<Entry>, a: set<Raw>, b: set<Raw>)
    ensures Filter(Filter(z, a), b) == Filter(z, a * b)
  {
    if z != [] {
      FilterTwice(z[1..], a, b);
      FilterConcat(if z[0].raw in a then [z[0]] else [], Filter(z[1..], a), b);
    }
  }

  lemma DistinctCons(e: Entry, z: seq<Entry>)
    ensures DistinctRaws([e] + z) <==> DistinctRaws(z) && e.raw !in Raws(z)
  {
    var all := [e] + z;
    if DistinctRaws(all) {
      forall i, j | 0 <= i < j < |z| ensures z[i].raw != z[j].raw { assert all[i + 1] == z[i] && all[j + 1] == z[j]; }
      forall f | f in z ensures f.raw != e.raw {
        var i :| 0 <= i < |z| && z[i] == f;
        assert all[i + 1] == f && all[0] == e;
      }
    }
    if DistinctRaws(z) && e.raw !in Raws(z) {
      forall i, j | 0 <= i < j < |all| ensures all[i].raw != all[j].raw { assert all[j] == z[j - 1] && all[j] in z; }
    }
  }

  lemma {:induction false} FilterKeeps(z: seq<Entry>, some: set<Raw>)
    ensures Ranked(z) ==> Ranked(Filter(z, some))
    ensures DistinctRaws(z) ==> DistinctRaws(Filter(z, some))
  {
    if z != [] {
      FilterKeeps(z[1..], some);
      FilterMeaning(z[1..], some);
      assert z == [z[0]] + z[1..];
      RankedCons(z[0], z[1..]);
      RankedCons(z[0], Filter(z[1..], some));
      DistinctCons(z[0], z[1..]);
      DistinctCons(z[0], Filter(z[1..], some));
      assert Filter(z, some) == if z[0].raw in some then [z[0]] + Filter(z[1..], some) else Filter(z[1..], some);
      hide Ranked, DistinctRaws, Filter;
    }
  }

  /** Removing a member from a selection is selecting the others. */
  lemma {:induction false} RemoveFiltered(z: seq<Entry>, some: set<Raw>, raw: Raw)
    ensures Remove(Filter(z, some), raw) == Filter(z, some - {raw})
  {
    if z != [] {
      var rest := Filter(z[1..], some);
      RemoveFiltered(z[1..], some, raw);
      if z[0].raw in some {
        assert Filter(z, some) == [z[0]] + rest && ([z[0]] + rest)[1..] == rest;
        assert Remove([z[0]] + rest, raw) == (if z[0].raw == raw then [] else [z[0]]) + Remove(rest, raw);
      } else {
        assert Filter(z, some) == rest;
      }
    }
  }
}
