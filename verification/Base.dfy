// Shared vocabulary: identifiers, optional values, and the two pieces of SQL
// the model relies on (`ORDER BY key, id LIMIT n` and `MAX`).
module Base {
  type Uuid = nat

  /** `uuid.Nil`. */
  const NIL: Uuid := 0

  datatype Option<+T> = None | Some(value: T)

  predicate NoDuplicates<T(==)>(s: seq<T>) {
    forall i, j :: 0 <= i < j < |s| ==> s[i] != s[j]
  }

  function Min(a: nat, b: nat): nat {
    if a <= b then a else b
  }

  function Elements<T>(s: seq<T>): set<T> {
    set x | x in s
  }

  /** `ORDER BY key, id`. */
  predicate Before(keys: map<Uuid, nat>, a: Uuid, b: Uuid)
    requires a in keys && b in keys
  {
    keys[a] < keys[b] || (keys[a] == keys[b] && a <= b)
  }

  lemma LeastExists(keys: map<Uuid, nat>, some: set<Uuid>)
    requires some <= keys.Keys && some != {}
    ensures exists m :: m in some && forall k | k in some :: Before(keys, m, k)
  {
    var x :| x in some;
    if some == {x} {
      assert Before(keys, x, x);
    } else {
      LeastExists(keys, some - {x});
      var m :| m in some - {x} && forall k | k in some - {x} :: Before(keys, m, k);
      var least := if Before(keys, m, x) then m else x;
      assert forall k | k in some :: k == x || k in some - {x};
      assert forall k | k in some :: Before(keys, least, k);
    }
  }

  function Least(keys: map<Uuid, nat>): (m: Uuid)
    requires keys != map[]
    ensures m in keys
    ensures forall k | k in keys :: Before(keys, m, k)
  {
    assert keys.Keys != {} by { var k :| k in keys; assert k in keys.Keys; }
    LeastExists(keys, keys.Keys);
    var m :| m in keys.Keys && forall k | k in keys.Keys :: Before(keys, m, k);
    m
  }

  /** What `SELECT id ... ORDER BY key, id LIMIT limit` returns: no duplicate, no
      outsider, as many rows as fit, in order, and nothing left out comes before
      a chosen row. */
  ghost predicate IsPage(keys: map<Uuid, nat>, limit: nat, ids: seq<Uuid>) {
    && |ids| == Min(limit, |keys|)
    && NoDuplicates(ids)
    && (forall i | 0 <= i < |ids| :: ids[i] in keys)
    && (forall i, j | 0 <= i <= j < |ids| :: Before(keys, ids[i], ids[j]))
    && (forall i, other | 0 <= i < |ids| && other in keys && other !in ids :: Before(keys, ids[i], other))
  }

  function Oldest(keys: map<Uuid, nat>, limit: nat): (ids: seq<Uuid>)
    decreases limit
  {
    if limit == 0 || keys == map[] then []
    else
      var m := Least(keys);
      [m] + Oldest(keys - {m}, limit - 1)
  }

  lemma {:induction false} OldestIsPage(keys: map<Uuid, nat>, limit: nat)
    ensures IsPage(keys, limit, Oldest(keys, limit))
    decreases limit
  {
    if limit == 0 {
    } else if keys == map[] {
      assert |keys| == 0;
    } else {
      var m := Least(keys);
      OldestIsPage(keys - {m}, limit - 1);
      RemoveShrinks(keys, m);
      PageCons(keys, m, limit, Oldest(keys - {m}, limit - 1));
    }
  }

  /** The keys that come before `m`. */
  function Ahead(keys: map<Uuid, nat>, m: Uuid): set<Uuid>
    requires m in keys
  {
    set k | k in keys && (keys[k] < keys[m] || (keys[k] == keys[m] && k < m))
  }

  /** A row is on the page exactly when fewer than `limit` rows come before it. */
  lemma OnPageIff(keys: map<Uuid, nat>, limit: nat, m: Uuid)
    requires m in keys
    ensures m in Oldest(keys, limit) <==> |Ahead(keys, m)| < limit
  {
    var page := Oldest(keys, limit);
    OldestIsPage(keys, limit);
    if m in page {
      var i :| 0 <= i < |page| && page[i] == m;
      forall k | k in Ahead(keys, m) ensures k in Elements(page[..i]) {
        var j :| 0 <= j < |page| && page[j] == k;
        assert j < i && page[..i][j] == k;
      }
      ElementsCount(page[..i]);
      SubsetCount(Ahead(keys, m), Elements(page[..i]));
    } else {
      ElementsCount(page);
      forall k | k in Elements(page) ensures k in Ahead(keys, m) {
        var j :| 0 <= j < |page| && page[j] == k;
        assert Before(keys, page[j], m) && k != m;
      }
      SubsetCount(Elements(page), Ahead(keys, m));
      assert Elements(page) <= keys.Keys - {m};
      SubsetCount(Elements(page), keys.Keys - {m});
      assert |keys.Keys - {m}| == |keys| - 1;
    }
  }

  lemma SubsetCount(a: set<Uuid>, b: set<Uuid>)
    requires a <= b
    ensures |a| <= |b|
  {
    assert b == a + (b - a);
  }

  lemma {:induction false} ElementsCount(s: seq<Uuid>)
    requires NoDuplicates(s)
    ensures |Elements(s)| == |s|
  {
    if s != [] {
      ElementsCount(s[1..]);
      assert Elements(s) == Elements(s[1..]) + {s[0]};
    }
  }

  lemma RemoveShrinks(keys: map<Uuid, nat>, m: Uuid)
    requires m in keys
    ensures |keys - {m}| == |keys| - 1
  {
  }

  lemma PageCons(keys: map<Uuid, nat>, m: Uuid, limit: nat, tail: seq<Uuid>)
    requires limit > 0 && m in keys && forall k | k in keys :: Before(keys, m, k)
    requires |keys - {m}| == |keys| - 1
    requires IsPage(keys - {m}, limit - 1, tail)
    ensures IsPage(keys, limit, [m] + tail)
  {
  }

  /** `COALESCE(MAX(...), 0)` over the scores of a player. */
  function MaxOf(s: set<nat>): (m: nat)
    requires 0 in s
    ensures m in s
    ensures forall x | x in s :: x <= m
  {
    MaxExists(s);
    var m :| m in s && forall x | x in s :: x <= m;
    m
  }

  lemma MaxExists(s: set<nat>)
    requires s != {}
    ensures exists m :: m in s && forall x | x in s :: x <= m
  {
    var x :| x in s;
    if s != {x} {
      MaxExists(s - {x});
      var m :| m in s - {x} && forall y | y in s - {x} :: y <= m;
      var top := if x <= m then m else x;
      assert forall y | y in s :: y == x || y in s - {x};
      assert top in s && forall y | y in s :: y <= top;
    }
  }
}
