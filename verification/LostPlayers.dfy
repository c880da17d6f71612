// Which players the matchmaker can lose, told by where they are: not in the queue,
// not in the service's hands, in no active match, although their connection lives
// and the tables know them.
module LostPlayers {
  import opened Base
  import opened Rows
  import opened SortedSet
  import opened MatchQueue
  import opened Matchmaker
  import MatchCreation
  import PopPair
  import QueueRuns

  ghost predicate InHand(st: State, u: Uuid) {
    exists s :: s in Hands(st) && s.member.user == u
  }

  /** A player of the tables, in no active match. */
  predicate Unmatched(db: Db, u: Uuid) {
    u in db.users && u !in db.claims
  }

  /** Popped by this service, still connected. */
  predicate StillHere(st: State, u: Uuid) {
    u in st.taken && Present(st.alive, st.taken[u].member)
  }

  /** Waiting for a match that nothing will find them. */
  ghost predicate Lost(st: State, u: Uuid) {
    StillHere(st, u) && Unmatched(st.db, u) && !InHand(st, u) && !Queued(st.queue.q, u)
  }

  /** The script takes the user's entry out of the queue. */
  predicate Removes(q: Queue, op: QueueRuns.Op, u: Uuid) {
    Queued(q, u) &&
    match op
    case Dequeue(m) => m.user == u && q.members[u] == Encoded(m)
    case Pop(limit, alive) => q.members[u] in Dropped(q, limit, alive)
    case _ => false
  }

  /** A pop returns the user's entry. */
  predicate Picks(st: State, limit: nat, u: Uuid) {
    Queued(st.queue.q, u) && st.queue.q.members[u] in Raws(Chosen(st.queue.q, limit, st.alive))
  }

  /** When a step loses a player, in terms of the state it starts from. */
  ghost predicate Loses(st: State, a: Action, u: Uuid) {
    match a
    // another script takes out the entry of a player the service had popped before
    case Outside(op) => StillHere(st, u) && Unmatched(st.db, u) && !InHand(st, u) && Removes(st.queue.q, op, u)
    // the player's match ends, or the player's row appears
    case Tables(db) =>
      StillHere(st, u) && !InHand(st, u) && !Queued(st.queue.q, u) && !Unmatched(st.db, u) && Unmatched(db, u)
    // the connection the player was popped with is back
    case Connections(alive) =>
      && u in st.taken && !Present(st.alive, st.taken[u].member) && Present(alive, st.taken[u].member)
      && Unmatched(st.db, u) && !InHand(st, u) && !Queued(st.queue.q, u)
    // the reply is lost; or the pop clears out the entry of a dead newer connection
    case Pop(limit, fault) =>
      && fault != FailsBefore && Unmatched(st.db, u) && Removes(st.queue.q, QueueRuns.Pop(limit, st.alive), u)
      && if Picks(st, limit, u) then fault == FailsAfter else StillHere(st, u)
    // the process dies with the player in hand
    case Crash => StillHere(st, u) && Unmatched(st.db, u) && InHand(st, u) && !Queued(st.queue.q, u)
    case Restore(_) => false
    case Create(_, _, _, _) => false
    case Return(_) => false
  }

  // ----------------------------------------------------------- what scripts do to users

  lemma EnqueueStays(queue: QueueRuns.State, m: Member, time: nat, u: Uuid)
    requires QueueRuns.Inv(queue) && ValidMember(m) && Queued(queue.q, u)
    ensures Queued(QueueRuns.Step(queue, QueueRuns.Enqueue(m, time)).q, u)
  {
    EnqueueKeeps(queue.q, m, time);
    var q' := EnqueueTx(queue.q, m, time).0;
    hide Agree, View, EnqueueTx, Queued, QueueRuns.Tracked;
    QueuedIsInView(queue.q, u);
    QueuedIsInView(q', u);
  }

  lemma DequeueTakes(queue: QueueRuns.State, m: Member, u: Uuid)
    requires QueueRuns.Inv(queue) && Queued(queue.q, u)
    ensures Queued(QueueRuns.Step(queue, QueueRuns.Dequeue(m)).q, u)
            <==> !Removes(queue.q, QueueRuns.Dequeue(m), u)
  {
    DequeueKeeps(queue.q, m);
    var q' := DequeueTx(queue.q, m).0;
    QueuedIsInView(queue.q, u);
    QueuedIsInView(q', u);
    hide QueueRuns.Tracked, DequeueTx, Score;
  }

  lemma PopTakes(queue: QueueRuns.State, limit: nat, alive: Presence, u: Uuid)
    requires QueueRuns.Inv(queue)
    ensures Queued(QueueRuns.Step(queue, QueueRuns.Pop(limit, alive)).q, u)
            <==> Queued(queue.q, u) && !Removes(queue.q, QueueRuns.Pop(limit, alive), u)
  {
    PopPair.PopKeeps(queue.q, limit, alive);
    var q' := PopTx(queue.q, limit, alive).0;
    QueuedIsInView(queue.q, u);
    QueuedIsInView(q', u);
    hide QueueRuns.Tracked, PopTx, Dropped, Score;
  }

  lemma RequeueStays(queue: QueueRuns.State, entries: seq<Slot>, alive: Presence, u: Uuid)
    requires QueueRuns.Inv(queue) && QueueRuns.Enabled(queue, QueueRuns.Requeue(entries, alive)) && Queued(queue.q, u)
    ensures Queued(QueueRuns.Step(queue, QueueRuns.Requeue(entries, alive)).q, u)
  {
    QueueRuns.RequeueStep(queue, entries, alive);
    QueueRuns.RequeueAllKeepsPlaces(View(queue.q), entries, alive);
    var q' := RequeueTx(queue.q, entries, alive).0;
    hide Agree, View, RequeueTx, Queued, QueueRuns.Tracked, QueueRuns.RequeueAllView;
    QueuedIsInView(queue.q, u);
    QueuedIsInView(q', u);
  }

  /** A queued user leaves the queue exactly by a script that removes the entry. */
  lemma ScriptTakes(queue: QueueRuns.State, op: QueueRuns.Op, u: Uuid)
    requires QueueRuns.Inv(queue) && QueueRuns.Enabled(queue, op) && Queued(queue.q, u)
    ensures Queued(QueueRuns.Step(queue, op).q, u) <==> !Removes(queue.q, op, u)
  {
    hide QueueRuns.Inv, QueueRuns.Step, Queued;
    match op {
      case Enqueue(m, time) => EnqueueStays(queue, m, time, u);
      case Dequeue(m) => DequeueTakes(queue, m, u);
      case Pop(limit, alive) => PopTakes(queue, limit, alive, u);
      case Requeue(entries, alive) => RequeueStays(queue, entries, alive, u);
    }
  }

  // ------------------------------------------------------------------- own steps

  lemma RestoreLosesNobody(st: State, fault: Fault, st': State, u: Uuid)
    requires Inv(st) && RestoreStep(st, fault) == Some(st') && Lost(st', u)
    ensures Lost(st, u)
  {
    hide QueueRuns.Inv, QueueRuns.Step, QueueRuns.Enabled, ClaimsExact, Queued;
    if InHand(st, u) {
      var s :| s in Hands(st) && s.member.user == u;
      RestoreKeepsHold(st, fault, st', s);
    }
    PendingCanRequeue(st);
    if Queued(st.queue.q, u) { RequeueStays(st.queue, st.pending, st.alive, u); }
  }

  lemma PendingCanRequeue(st: State)
    requires Inv(st)
    ensures QueueRuns.Inv(st.queue)
    ensures QueueRuns.Enabled(st.queue, QueueRuns.Requeue(st.pending, st.alive))
    ensures QueueRuns.Enabled(st.queue, QueueRuns.Requeue(Held(st.pc), st.alive))
  {
    hide QueueRuns.Inv, ClaimsExact;
  }

  lemma RestoreKeepsHold(st: State, fault: Fault, st': State, s: Slot)
    requires Inv(st) && RestoreStep(st, fault) == Some(st') && s in Hands(st)
    ensures !Lost(st', s.member.user)
  {
    if s !in Hands(st') {
      RestoreDeparts(st, fault, st', s);
    }
    hide QueueRuns.Inv, QueueRuns.Step, ClaimsExact, Queued, BackInQueue, Agree, View;
  }

  lemma ReturnLosesNobody(st: State, fault: Fault, st': State, u: Uuid)
    requires Inv(st) && ReturnStep(st, fault) == Some(st') && Lost(st', u)
    ensures Lost(st, u)
  {
    hide QueueRuns.Inv, QueueRuns.Step, QueueRuns.Enabled, ClaimsExact, Queued;
    if InHand(st, u) {
      var s :| s in Hands(st) && s.member.user == u;
      ReturnKeepsHold(st, fault, st', s);
    }
    PendingCanRequeue(st);
    if Queued(st.queue.q, u) { RequeueStays(st.queue, st.pc.held, st.alive, u); }
  }

  lemma ReturnKeepsHold(st: State, fault: Fault, st': State, s: Slot)
    requires Inv(st) && ReturnStep(st, fault) == Some(st') && s in Hands(st)
    ensures !Lost(st', s.member.user)
  {
    if s !in Hands(st') {
      ReturnDeparts(st, fault, st', s);
    }
    hide QueueRuns.Inv, QueueRuns.Step, ClaimsExact, Queued, BackInQueue, Agree, View;
  }

  lemma CreateLosesNobody(st: State, a: Action, st': State, u: Uuid)
    requires Inv(st) && a.Create? && Step(st, a) == Some(st') && Lost(st', u)
    ensures Lost(st, u)
  {
    hide QueueRuns.Inv, MatchCreation.CreateTx, ClaimsExact, Queued, Eligible, Known, Latest;
    var pair := st.pc.pair;
    CreateGrows(st.db, pair[0].member.user, pair[1].member.user, a.duration, a.now, a.newId);
    if InHand(st, u) {
      var s :| s in Hands(st) && s.member.user == u;
      if s !in Hands(st') { CreateDeparts(st, a, st', s); }
    }
  }

  /** Who is in a popped pair was queued with a live connection. */
  lemma PairIsLive(q: Queue, limit: nat, alive: Presence)
    requires Agree(q)
    ensures var pair := PopTx(q, limit, alive).1;
      forall e | e in pair ::
        && e.raw.Encoded? && Queued(q, e.raw.member.user) && q.members[e.raw.member.user] == e.raw
        && Present(alive, e.raw.member)
  {
    PopPair.ChosenAreLive(q, limit, alive);
    forall e | e in Chosen(q, limit, alive) ensures Queued(q, e.raw.member.user) {
      Scored(q.zset, e);
    }
    hide Chosen;
  }

  /** The users a pop returns are those of its pair. */
  lemma PickedAreTaken(st: State, limit: nat, u: Uuid)
    requires QueueRuns.Inv(st.queue)
    ensures var pair := PopTx(st.queue.q, limit, st.alive).1;
      (forall e | e in pair :: e.raw.Encoded?)
      && (Picks(st, limit, u) <==> exists s :: s in Slots(pair) && s.member.user == u)
      && (forall s | s in Slots(pair) :: Present(st.alive, s.member))
  {
    var q := st.queue.q;
    var pair := PopTx(q, limit, st.alive).1;
    PairIsLive(q, limit, st.alive);
    assert pair == Chosen(q, limit, st.alive);
    hide Chosen, PopTx, Agree, Queued, QueueRuns.Tracked;
    forall s | s in Slots(pair) ensures Present(st.alive, s.member) && (s.member.user == u ==> Picks(st, limit, u)) {
      var i :| 0 <= i < |pair| && Slots(pair)[i] == s;
      assert pair[i] in pair;
    }
    if Picks(st, limit, u) {
      PickedHasSlot(q, pair, u);
    }
  }

  lemma PickedHasSlot(q: Queue, pair: seq<Entry>, u: Uuid)
    requires HashOk(q) && u in q.members && q.members[u] in Raws(pair)
    requires forall e | e in pair :: e.raw.Encoded?
    ensures exists s :: s in Slots(pair) && s.member.user == u
  {
    var e :| e in pair && e.raw == q.members[u];
    var i :| 0 <= i < |pair| && pair[i] == e;
    assert Slots(pair)[i] in Slots(pair);
    hide Score;
    assert e.raw.member.user == u;
  }

  lemma TakenAfter(taken: map<Uuid, Slot>, slots: seq<Slot>, alive: Presence, u: Uuid)
    requires |slots| == 2 && forall s | s in slots :: Present(alive, s.member)
    ensures var taken' := TakenWith(taken, slots);
      if exists s :: s in slots && s.member.user == u then u in taken' && Present(alive, taken'[u].member)
      else (u in taken' <==> u in taken) && (u in taken ==> taken'[u] == taken[u])
  {
  }

  /** Whom a pop that took effect leaves in hand, and whose connection counts. */
  lemma PopGives(st: State, limit: nat, fault: Fault, st': State, u: Uuid)
    requires Inv(st) && PopStep(st, limit, fault) == Some(st') && fault != FailsBefore
    ensures !InHand(st, u) && (InHand(st', u) <==> Picks(st, limit, u) && fault != FailsAfter)
    ensures StillHere(st', u) <==> Picks(st, limit, u) || StillHere(st, u)
  {
    hide QueueRuns.Inv, QueueRuns.Step, PopTx, ClaimsExact, Picks, Slots, Known, Latest, Queued;
    assert Hands(st) == [] && QueueRuns.Inv(st.queue);
    hide Inv, PopStep;
    PopShape(st, limit, fault, st');
    PickedAreTaken(st, limit, u);
    var slots := Slots(PopTx(st.queue.q, limit, st.alive).1);
    assert Hands(st') == if fault == FailsAfter then [] else slots;
    hide TakenWith, Present;
    GivesSlots(st, st', slots, fault, u, Picks(st, limit, u));
  }

  lemma GivesSlots(st: State, st': State, slots: seq<Slot>, fault: Fault, u: Uuid, picked: bool)
    requires Hands(st) == [] && Hands(st') == (if fault == FailsAfter then [] else slots)
    requires st'.taken == TakenWith(st.taken, slots) && st'.alive == st.alive && (slots == [] || |slots| == 2)
    requires picked <==> exists s :: s in slots && s.member.user == u
    requires forall s | s in slots :: Present(st.alive, s.member)
    ensures !InHand(st, u) && (InHand(st', u) <==> picked && fault != FailsAfter)
    ensures StillHere(st', u) <==> picked || StillHere(st, u)
  {
    hide Hands, Present;
    if |slots| == 2 {
      TakenAfter(st.taken, slots, st.alive, u);
    }
    hide TakenWith;
  }

  lemma PopLoses(st: State, limit: nat, fault: Fault, st': State, u: Uuid)
    requires Inv(st) && PopStep(st, limit, fault) == Some(st')
    ensures !Lost(st, u) && Lost(st', u) <==> Loses(st, Pop(limit, fault), u)
  {
    if fault == FailsBefore {
      assert Hands(st') == Hands(st);
      hide QueueRuns.Inv, QueueRuns.Step, PopTx, ClaimsExact, Queued, Chosen;
    } else {
      PopShape(st, limit, fault, st');
      PopTakes(st.queue, limit, st.alive, u);
      PopGives(st, limit, fault, st', u);
      hide *;
      LostByPop(st, limit, fault, st', u);
    }
  }

  lemma LostByPop(st: State, limit: nat, fault: Fault, st': State, u: Uuid)
    requires fault != FailsBefore && st'.db == st.db
    requires Queued(st'.queue.q, u)
        <==> Queued(st.queue.q, u) && !Removes(st.queue.q, QueueRuns.Pop(limit, st.alive), u)
    requires !InHand(st, u) && (InHand(st', u) <==> Picks(st, limit, u) && fault != FailsAfter)
    requires StillHere(st', u) <==> Picks(st, limit, u) || StillHere(st, u)
    ensures !Lost(st, u) && Lost(st', u) <==> Loses(st, Pop(limit, fault), u)
  {
    hide Unmatched, StillHere, InHand, Dropped, Chosen;
  }

  // ------------------------------------------------------------------- all steps

  lemma OutsideLoses(st: State, op: QueueRuns.Op, u: Uuid)
    requires Inv(st) && QueueRuns.Enabled(st.queue, op)
    ensures var st' := st.(queue := QueueRuns.Step(st.queue, op));
      !Lost(st, u) && Lost(st', u) <==> Loses(st, Outside(op), u)
  {
    if Queued(st.queue.q, u) { ScriptTakes(st.queue, op, u); }
    hide QueueRuns.Inv, QueueRuns.Step, QueueRuns.Enabled, ClaimsExact, Queued;
    var st' := st.(queue := QueueRuns.Step(st.queue, op));
    assert Hands(st') == Hands(st);
  }

  lemma CrashLoses(st: State, u: Uuid)
    requires Inv(st)
    ensures !Lost(st, u) && Lost(st.(pending := [], pc := Waiting), u) <==> Loses(st, Crash, u)
  {
    hide QueueRuns.Inv, ClaimsExact, Queued;
    assert Hands(st.(pending := [], pc := Waiting)) == [];
  }

  lemma SurroundingsLose(st: State, a: Action, st': State, u: Uuid)
    requires Step(st, a) == Some(st') && (a.Tables? || a.Connections?)
    ensures !Lost(st, u) && Lost(st', u) <==> Loses(st, a, u)
  {
    hide ClaimsExact, Queued, Evolves;
    assert Hands(st') == Hands(st);
  }

  /** Exactly when a step loses a player. Restoring, creating and returning lose
      nobody, whichever way they fail. */
  lemma LostExactly(st: State, a: Action, st': State, u: Uuid)
    requires Inv(st) && Step(st, a) == Some(st')
    ensures !Lost(st, u) && Lost(st', u) <==> Loses(st, a, u)
  {
    match a {
      case Outside(op) => OutsideLoses(st, op, u);
      case Tables(_) => SurroundingsLose(st, a, st', u);
      case Connections(_) => SurroundingsLose(st, a, st', u);
      case Pop(limit, fault) => PopLoses(st, limit, fault, st', u);
      case Crash => CrashLoses(st, u);
      case Restore(fault) => if Lost(st', u) { RestoreLosesNobody(st, fault, st', u); }
      case Create(_, _, _, _) => if Lost(st', u) { CreateLosesNobody(st, a, st', u); }
      case Return(fault) => if Lost(st', u) { ReturnLosesNobody(st, fault, st', u); }
    }
  }

  /** Action `k` of the run lost the player, and the player is lost ever since. */
  ghost predicate LostSince(st: State, acts: seq<Action>, k: nat, u: Uuid)
    requires Run(st, acts).Some?
  {
    k < |acts| && Loses(StateAt(st, acts, k), acts[k], u) && forall i | k < i <= |acts| :: Lost(StateAt(st, acts, i), u)
  }

  lemma {:induction false} LastLoss(st: State, acts: seq<Action>, u: Uuid, n: nat) returns (k: nat)
    requires Inv(st) && Run(st, acts).Some? && !Lost(st, u) && n <= |acts|
    requires forall i | n <= i <= |acts| :: Lost(StateAt(st, acts, i), u)
    ensures LostSince(st, acts, k, u)
    decreases n
  {
    hide Inv, Step, Lost, Run, Loses;
    assert StateAt(st, acts, 0) == st;
    k := n - 1;
    if Lost(StateAt(st, acts, k), u) {
      k := LastLoss(st, acts, u, k);
    } else {
      StateAtInv(st, acts, k);
      StateAtStep(st, acts, k);
      LostExactly(StateAt(st, acts, k), acts[k], StateAt(st, acts, k + 1), u);
    }
  }

  lemma LostAtEnd(st: State, acts: seq<Action>, k: nat, u: Uuid)
    requires Run(st, acts).Some? && LostSince(st, acts, k, u)
    ensures Lost(StateAt(st, acts, |acts|), u)
  {
    hide StateAt, Run, Lost, Loses;
  }

  lemma StartsWell(st: State, u: Uuid)
    requires Init(st)
    ensures Inv(st) && !Lost(st, u)
  {
    EmptyHands(st.queue, st.taken);
    hide QueueRuns.Inv, ClaimsExact;
  }

  /** Over any run of the service and its surroundings, a player ends up lost if and
      only if some step lost the player and nothing found them since. */
  lemma LostInRun(st: State, acts: seq<Action>, u: Uuid)
    requires Init(st) && Run(st, acts).Some?
    ensures Lost(Run(st, acts).value, u) <==> exists k :: LostSince(st, acts, k, u)
  {
    hide *;
    StartsWell(st, u);
    StateAtStep(st, acts, |acts|);
    if Lost(Run(st, acts).value, u) {
      var k := LastLoss(st, acts, u, |acts|);
    }
    forall k | LostSince(st, acts, k, u) ensures Lost(Run(st, acts).value, u) {
      LostAtEnd(st, acts, k, u);
    }
  }

  /** A requeue whose reply is lost still brings the players back: the crash that
      forgets them then loses none of them. */
  lemma RequeuedSurvivesCrash(st: State, back: State, u: Uuid)
    requires Inv(st) && ReturnStep(st, FailsAfter) == Some(back)
    ensures Lost(back.(pending := [], pc := Waiting), u) ==> Lost(st, u)
  {
    ReturnKeeps(st, FailsAfter, back);
    LostExactly(st, Return(FailsAfter), back, u);
    CrashLoses(back, u);
    if Lost(back.(pending := [], pc := Waiting), u) && InHand(back, u) {
      var s :| s in Hands(back) && s.member.user == u;
      RequeueBrings(st.queue, st.pc.held, st.alive, s);
    }
    hide QueueRuns.Inv, QueueRuns.Step, ClaimsExact, Queued, Agree, View, BackInQueue;
  }

  // ---------------------------------------------------------------------- an example

  const ANN := Member(1, 11, 1200)
  const BEN := Member(2, 12, 1300)
  const BOTH: Presence := {(1, 11), (2, 12)}
  const TWO_WAITING := Queue([Entry(Encoded(ANN), 5), Entry(Encoded(BEN), 6)],
      map[1 := Encoded(ANN), 2 := Encoded(BEN)], 6)

  lemma TwoWaitingAgree()
    ensures Agree(TWO_WAITING)
    ensures View(TWO_WAITING) == map[1 := Slot(ANN, 5), 2 := Slot(BEN, 6)]
  {
    var q := TWO_WAITING;
    assert Score(q.zset, Encoded(ANN)) == Some(5);
    assert q.zset[1..] == [q.zset[1]] && Score([q.zset[1]], Encoded(BEN)) == Some(6);
    assert Score(q.zset, Encoded(BEN)) == Some(6);
    hide Score;
    assert HashOk(q);
    assert EntriesOk(q);
    hide HashOk, EntriesOk;
  }

  lemma TwoWaitingPop()
    ensures PopTx(TWO_WAITING, 100, BOTH).1 == TWO_WAITING.zset && PopTx(TWO_WAITING, 100, BOTH).0.zset == []
  {
    var q := TWO_WAITING;
    assert Window(q, 100) == q.zset;
    assert q.zset[0] in q.zset && q.zset[1] in q.zset;
    assert Live(q, BOTH, q.zset[0].raw) && Live(q, BOTH, q.zset[1].raw);
    FilterAll(q.zset, LiveRaws(q, BOTH));
    assert Chosen(q, 100, BOTH) == q.zset;
    hide LiveRaws, Filter;
    FilterNone(q.zset, Raws(q.zset) - Dropped(q, 100, BOTH));
  }

  const WAITING_PAIR := QueueRuns.State(TWO_WAITING, map[5 := 1, 6 := 2], {})

  lemma WaitingPairInv()
    ensures QueueRuns.Inv(WAITING_PAIR)
  {
    TwoWaitingAgree();
    hide Agree, View;
    assert QueueRuns.Tracked(View(TWO_WAITING), map[5 := 1, 6 := 2], {}, 6);
  }

  function TwoReady(db: Db): State {
    State(WAITING_PAIR, db, BOTH, [], Ready, map[])
  }

  lemma PopsBoth(db: Db)
    ensures var next := PopStep(TwoReady(db), 100, FailsAfter);
      && next.Some? && next.value.queue.q.zset == [] && next.value.db == db && next.value.alive == BOTH
      && Hands(next.value) == [] && next.value.taken == map[1 := Slot(ANN, 5), 2 := Slot(BEN, 6)]
  {
    TwoWaitingPop();
    hide PopTx;
    assert Slots(TWO_WAITING.zset) == [Slot(ANN, 5), Slot(BEN, 6)];
  }

  /** A lost reply really loses players: two of them leave the queue, and neither a
      match, nor the service, nor the queue knows them. */
  lemma LostReply(db: Db)
    requires ClaimsExact(db) && Unmatched(db, 1) && Unmatched(db, 2)
    ensures Inv(TwoReady(db)) && PopStep(TwoReady(db), 100, FailsAfter).Some?
    ensures var next := PopStep(TwoReady(db), 100, FailsAfter).value; Lost(next, 1) && Lost(next, 2)
  {
    WaitingPairInv();
    PopsBoth(db);
    hide QueueRuns.Inv, ClaimsExact, PopStep;
  }
}
