// The user row locks of createMatch (internal/match/create.go) and enqueueForMatch
// (internal/gateway/matchmaking.go): any number of transactions over any users,
// each locking rows one at a time and holding them to its end.
module UserLocks {
  import opened Base
  import MatchCreation

  datatype Kind = CreateMatch(a: Uuid, b: Uuid) | Enqueue(user: Uuid)

  /** The rows a transaction locks, in order. */
  function LockOrder(kind: Kind): seq<Uuid> {
    match kind
    case CreateMatch(a, b) => MatchCreation.OrderedPair(a, b)
    case Enqueue(user) => [user]
  }

  /** An open transaction has dealt with the first `next` rows of its order. */
  datatype Tx = Tx(order: seq<Uuid>, next: nat)

  datatype State = State(users: set<Uuid>, locks: map<Uuid, nat>, txs: map<nat, Tx>)

  datatype Action =
    | SignUp(user: Uuid)
    | Begin(t: nat, kind: Kind)
    | Lock(t: nat)           // SELECT ... FOR UPDATE of the next row
    | End(t: nat)            // commit or rollback, at any point

  /** A row that does not exist is not locked; a row held by another transaction
      makes the statement wait. */
  function LockStep(st: State, t: nat): Option<State> {
    if t !in st.txs || st.txs[t].next >= |st.txs[t].order| then None
    else
      var tx := st.txs[t];
      var user := tx.order[tx.next];
      var moved := st.(txs := st.txs[t := Tx(tx.order, tx.next + 1)]);
      if user !in st.users then Some(moved)
      else if user in st.locks && st.locks[user] != t then None
      else Some(moved.(locks := st.locks[user := t]))
  }

  function Step(st: State, a: Action): Option<State> {
    match a
    case SignUp(user) => Some(st.(users := st.users + {user}))
    case Begin(t, kind) =>
      if t in st.txs || (kind.CreateMatch? && kind.a == kind.b) then None
      else Some(st.(txs := st.txs[t := Tx(LockOrder(kind), 0)]))
    case Lock(t) => LockStep(st, t)
    case End(t) =>
      if t !in st.txs then None
      else Some(st.(txs := st.txs - {t}, locks := map u | u in st.locks && st.locks[u] != t :: st.locks[u]))
  }

  function Run(st: State, acts: seq<Action>): Option<State>
    decreases |acts|
  {
    if acts == [] then Some(st)
    else match Step(st, acts[0])
      case None => None
      case Some(next) => Run(next, acts[1..])
  }

  predicate Init(st: State) {
    st.locks == map[] && st.txs == map[]
  }

  predicate Ascending(order: seq<Uuid>) {
    forall i, j | 0 <= i < j < |order| :: order[i] < order[j]
  }

  /** Orders ascend, and whoever holds a row is an open transaction past that row. */
  ghost predicate Inv(st: State) {
    && (forall t | t in st.txs :: Ascending(st.txs[t].order) && st.txs[t].next <= |st.txs[t].order|)
    && (forall u | u in st.locks :: st.locks[u] in st.txs && HasPassed(st.txs[st.locks[u]], u))
  }

  ghost predicate HasPassed(tx: Tx, u: Uuid) {
    exists i :: 0 <= i < tx.next && i < |tx.order| && tx.order[i] == u
  }

  lemma PassedGrows(tx: Tx, u: Uuid)
    ensures HasPassed(tx, u) ==> HasPassed(Tx(tx.order, tx.next + 1), u)
    ensures tx.next < |tx.order| ==> HasPassed(Tx(tx.order, tx.next + 1), tx.order[tx.next])
  {
  }

  lemma StepKeeps(st: State, a: Action, st': State)
    requires Inv(st) && Step(st, a) == Some(st')
    ensures Inv(st')
  {
    if a.Begin? {
      assert Ascending(LockOrder(a.kind));
    }
    hide HasPassed, Ascending, LockOrder;
    if a.Lock? {
      var tx := st.txs[a.t];
      forall u | u in st'.locks ensures st'.locks[u] in st'.txs && HasPassed(st'.txs[st'.locks[u]], u) {
        PassedGrows(tx, u);
      }
    }
  }

  /** A row that exists is locked for its user or waited for: no step but the end of its
      holder takes a lock away, and a statement goes through exactly if nobody else holds
      its row. */
  lemma HeldUntilEnd(st: State, a: Action, st': State)
    requires Step(st, a) == Some(st')
    ensures forall u | u in st.locks && !(a.End? && a.t == st.locks[u]) :: u in st'.locks && st'.locks[u] == st.locks[u]
  {
  }

  lemma LocksExactly(st: State, t: nat)
    requires t in st.txs && st.txs[t].next < |st.txs[t].order|
    ensures var user := st.txs[t].order[st.txs[t].next];
      && (Step(st, Lock(t)).Some? <==> user !in st.users || user !in st.locks || st.locks[user] == t)
      && (Step(st, Lock(t)).Some? ==>
            && Step(st, Lock(t)).value.txs == st.txs[t := Tx(st.txs[t].order, st.txs[t].next + 1)]
            && Step(st, Lock(t)).value.locks == if user in st.users then st.locks[user := t] else st.locks)
  {
  }

  lemma {:induction false} RunKeeps(st: State, acts: seq<Action>)
    requires Inv(st) && Run(st, acts).Some?
    ensures Inv(Run(st, acts).value)
    decreases |acts|
  {
    if acts != [] {
      StepKeeps(st, acts[0], Step(st, acts[0]).value);
      RunKeeps(Step(st, acts[0]).value, acts[1..]);
    }
  }

  // --------------------------------------------------------------- the wait-for graph

  predicate Wants(st: State, t: nat) {
    t in st.txs && st.txs[t].next < |st.txs[t].order|
  }

  function Wanted(st: State, t: nat): Uuid
    requires Wants(st, t)
  {
    st.txs[t].order[st.txs[t].next]
  }

  predicate WaitsFor(st: State, t: nat, u: nat) {
    Wants(st, t) && Wanted(st, t) in st.locks && st.locks[Wanted(st, t)] == u && u != t
  }

  /** A path of the wait-for graph; a cycle is a path from a transaction to itself. */
  ghost predicate Path(st: State, path: seq<nat>) {
    |path| >= 2 && forall i | 0 <= i < |path| - 1 :: WaitsFor(st, path[i], path[i + 1])
  }

  /** Whoever waits for a transaction that itself wants a row wants a smaller row. */
  lemma WaitingAscends(st: State, t: nat, u: nat)
    requires Inv(st) && WaitsFor(st, t, u) && Wants(st, u)
    ensures Wanted(st, t) < Wanted(st, u)
  {
  }

  lemma {:induction false} PathAscends(st: State, path: seq<nat>)
    requires Inv(st) && Path(st, path) && Wants(st, path[|path| - 1])
    ensures Wants(st, path[0]) && Wanted(st, path[0]) < Wanted(st, path[|path| - 1])
    decreases |path|
  {
    assert WaitsFor(st, path[0], path[1]);
    if |path| == 2 {
      WaitingAscends(st, path[0], path[1]);
    } else {
      var tail := path[1..];
      forall i | 0 <= i < |tail| - 1 ensures WaitsFor(st, tail[i], tail[i + 1]) {
        assert WaitsFor(st, path[i + 1], path[i + 2]);
      }
      PathAscends(st, tail);
      WaitingAscends(st, path[0], path[1]);
    }
  }

  /** No deadlock: at every moment of every run, no chain of waiting transactions
      leads back to where it starts. */
  lemma NoDeadlock(st: State, acts: seq<Action>, path: seq<nat>)
    requires Init(st) && Run(st, acts).Some? && Path(Run(st, acts).value, path)
    ensures path[0] != path[|path| - 1]
  {
    var now := Run(st, acts).value;
    RunKeeps(st, acts);
    assert WaitsFor(now, path[0], path[1]);
    if path[0] == path[|path| - 1] {
      PathAscends(now, path);
    }
  }

  // ----------------------------------------------------------------------- progress

  predicate Blocked(st: State, t: nat) {
    Wants(st, t) && LockStep(st, t).None?
  }

  /** Who blocks a transaction is past the row it wants. */
  lemma BlockedBehind(st: State, t: nat) returns (holder: nat)
    requires Inv(st) && Blocked(st, t)
    ensures holder in st.txs && (Wants(st, holder) ==> Wanted(st, t) < Wanted(st, holder))
  {
    holder := st.locks[Wanted(st, t)];
    if Wants(st, holder) { WaitingAscends(st, t, holder); }
  }

  /** As long as transactions are open, one of them is not waiting. */
  lemma SomeoneMoves(st: State)
    requires Inv(st) && st.txs != map[]
    ensures exists t :: t in st.txs && !Blocked(st, t)
  {
    if forall t | t in st.txs :: Blocked(st, t) {
      var top := TopWaiter(st, st.txs.Keys);
      var _ := BlockedBehind(st, top);
    }
  }

  /** The transaction that wants the largest row. */
  lemma TopWaiter(st: State, some: set<nat>) returns (top: nat)
    requires some != {} && forall t | t in some :: Wants(st, t)
    ensures top in some && forall t | t in some :: Wanted(st, t) <= Wanted(st, top)
  {
    var x :| x in some;
    if some == {x} {
      top := x;
    } else {
      var y := TopWaiter(st, some - {x});
      top := if Wanted(st, y) < Wanted(st, x) then x else y;
      assert forall t | t in some :: t == x || t in some - {x};
    }
  }

  /** A schedule without newcomers in which a transaction ends only after its last row. */
  predicate Orderly(st: State, acts: seq<Action>)
    decreases |acts|
  {
    acts == [] ||
    (&& (acts[0].Lock? || (acts[0].End? && !Wants(st, acts[0].t)))
     && Step(st, acts[0]).Some?
     && Orderly(Step(st, acts[0]).value, acts[1..]))
  }

  lemma {:induction false} RunConcat(st: State, first: seq<Action>, more: seq<Action>)
    requires Orderly(st, first) && Run(st, first).Some? && Orderly(Run(st, first).value, more)
    ensures Orderly(st, first + more) && Run(st, first + more) == Run(Run(st, first).value, more)
    decreases |first|
  {
    if first == [] {
      assert first + more == more;
    } else {
      RunConcat(Step(st, first[0]).value, first[1..], more);
      assert (first + more)[1..] == first[1..] + more;
    }
  }

  lemma TopStaysTop(st: State, top: nat, t: nat, st': State)
    requires Inv(st) && Step(st, Lock(top)) == Some(st') && Wants(st', top)
    requires Wants(st, t) && Wanted(st, t) <= Wanted(st, top)
    ensures Wants(st', t) && Wanted(st', t) <= Wanted(st', top)
  {
  }

  /** Among waiting transactions, the one that wants the largest row gets it, and
      then wants a larger one still, until it can end. */
  lemma {:induction false} TopFinishes(st: State, top: nat) returns (acts: seq<Action>)
    requires Inv(st) && top in st.txs
    requires Wants(st, top) ==> forall t | t in st.txs :: Wants(st, t) && Wanted(st, t) <= Wanted(st, top)
    ensures Orderly(st, acts) && Run(st, acts).Some?
    ensures Run(st, acts).value.txs == st.txs - {top}
    decreases |st.txs[top].order| - st.txs[top].next
  {
    if !Wants(st, top) {
      acts := [End(top)];
      assert Run(st, acts) == Run(Step(st, End(top)).value, []);
    } else {
      if Blocked(st, top) {
        var _ := BlockedBehind(st, top);
        assert false;
      }
      var st' := Step(st, Lock(top)).value;
      StepKeeps(st, Lock(top), st');
      forall t | t in st'.txs && Wants(st', top) ensures Wants(st', t) && Wanted(st', t) <= Wanted(st', top) {
        TopStaysTop(st, top, t, st');
      }
      var rest := TopFinishes(st', top);
      acts := [Lock(top)] + rest;
      assert acts[1..] == rest;
    }
  }

  /** From every reachable state, all open transactions can get all their rows and
      end: whatever the interleaving so far, nobody is stuck. */
  lemma {:induction false} EveryoneFinishes(st: State) returns (acts: seq<Action>)
    requires Inv(st)
    ensures Orderly(st, acts) && Run(st, acts).Some? && Run(st, acts).value.txs == map[]
    decreases |st.txs|
  {
    if st.txs == map[] {
      acts := [];
    } else {
      var top: nat;
      if forall t | t in st.txs :: Wants(st, t) {
        assert st.txs.Keys != {} by { var t :| t in st.txs; }
        top := TopWaiter(st, st.txs.Keys);
      } else {
        top :| top in st.txs && !Wants(st, top);
      }
      var first := TopFinishes(st, top);
      RunKeeps(st, first);
      var mid := Run(st, first).value;
      assert mid.txs.Keys == st.txs.Keys - {top} && |mid.txs.Keys| < |st.txs.Keys|;
      var rest := EveryoneFinishes(mid);
      RunConcat(st, first, rest);
      acts := first + rest;
    }
  }
}
