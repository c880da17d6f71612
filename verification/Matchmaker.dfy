// internal/match/service.go: one matchmaker popping pairs and creating matches,
// while the gateway and other replicas use the same queue and tables between any
// two of its calls, connections come and go, calls fail before or after taking
// effect, and the process may crash at any point.
module Matchmaker {
  import opened Base
  import opened Rows
  import opened SortedSet
  import opened MatchQueue
  import MatchCreation
  import PopPair
  import QueueRuns

  datatype Fault = NoFault | FailsBefore | FailsAfter

  datatype Pc =
    | Waiting                      // start of step
    | Ready                        // pending restored
    | Holding(pair: seq<Slot>)     // popped, before create
    | Returning(held: seq<Slot>)   // before the requeue of those who cannot play now

  /** `taken` is history: what each user's last pop by this service took out. */
  datatype State = State(
    queue: QueueRuns.State, db: Db, alive: Presence, pending: seq<Slot>, pc: Pc, taken: map<Uuid, Slot>)

  datatype Action =
    | Outside(op: QueueRuns.Op)
    | Tables(db: Db)
    | Connections(alive: Presence)
    | Restore(fault: Fault)
    | Pop(limit: nat, fault: Fault)
    | Create(fault: Fault, duration: nat, now: nat, newId: Uuid)
    | Return(fault: Fault)
    | Crash

  function Held(pc: Pc): seq<Slot> {
    match pc
    case Holding(pair) => pair
    case Returning(held) => held
    case _ => []
  }

  /** What the process knows and the queue may not. */
  function Hands(st: State): seq<Slot> {
    st.pending + Held(st.pc)
  }

  /** MissingPlayersError.Has and ActiveMatchConflictError.MatchFor. */
  predicate Barred(s: Slot, missing: seq<Uuid>, claims: seq<(Uuid, Uuid)>) {
    s.member.user in missing || exists c :: c in claims && c.0 == s.member.user
  }

  /** handleIneligiblePlayers: who may go back, and who is dropped. */
  function Eligible(pair: seq<Slot>, missing: seq<Uuid>, claims: seq<(Uuid, Uuid)>): (seq<Slot>, seq<Slot>)
  {
    if pair == [] then ([], [])
    else
      var (rest, out) := Eligible(pair[1..], missing, claims);
      if Barred(pair[0], missing, claims) then (rest, [pair[0]] + out) else ([pair[0]] + rest, out)
  }

  function Slots(entries: seq<Entry>): seq<Slot>
    requires forall e | e in entries :: e.raw.Encoded?
  {
    seq(|entries|, i requires 0 <= i < |entries| => QueueRuns.SlotOf(entries[i]))
  }

  // ------------------------------------------------------------------------- steps

  function RestoreStep(st: State, fault: Fault): Option<State> {
    if !st.pc.Waiting? then None
    else if st.pending == [] then Some(st.(pc := Ready))
    else
      var after := QueueRuns.Step(st.queue, QueueRuns.Requeue(st.pending, st.alive));
      match fault
      case NoFault => Some(st.(queue := after, pending := [], pc := Ready))
      case FailsBefore => Some(st)
      case FailsAfter => Some(st.(queue := after))
  }

  /** What was last taken out for each user, after taking out a pair. */
  function TakenWith(taken: map<Uuid, Slot>, slots: seq<Slot>): map<Uuid, Slot> {
    if |slots| == 2 then taken[slots[0].member.user := slots[0]][slots[1].member.user := slots[1]] else taken
  }

  /** The Go side refuses a pair it cannot decode; see `PoppedPair`. */
  function PopStep(st: State, limit: nat, fault: Fault): Option<State> {
    if !st.pc.Ready? || limit == 0 then None
    else
      var after := QueueRuns.Step(st.queue, QueueRuns.Pop(limit, st.alive));
      var pair := PopTx(st.queue.q, limit, st.alive).1;
      if fault == FailsBefore then Some(st.(pc := Waiting))
      else if exists e :: e in pair && !e.raw.Encoded? then None
      else if pair == [] then Some(st.(queue := after, pc := Waiting))
      else
        var slots := Slots(pair);
        Some(st.(queue := after, pc := if fault == FailsAfter then Waiting else Holding(slots),
                 taken := TakenWith(st.taken, slots)))
  }

  function CreateStep(st: State, fault: Fault, duration: nat, now: nat, newId: Uuid): Option<State> {
    if !st.pc.Holding? || |st.pc.pair| != 2 || newId in st.db.matches then None
    else
      var pair := st.pc.pair;
      var (db', res) := MatchCreation.CreateTx(st.db, pair[0].member.user, pair[1].member.user, duration, now, newId);
      match fault
      case FailsBefore => Some(st.(pc := Returning(pair)))
      case FailsAfter => Some(st.(db := db', pc := Returning(pair)))
      case NoFault =>
        match res
        case Created(_, _, _) => Some(st.(db := db', pc := Waiting))
        case Ineligible(missing, claims) => Some(st.(pc := Returning(Eligible(pair, missing, claims).0)))
        case CreateError => Some(st.(pc := Returning(pair)))
  }

  function ReturnStep(st: State, fault: Fault): Option<State> {
    if !st.pc.Returning? then None
    else if st.pc.held == [] then Some(st.(pc := Waiting))
    else
      var after := QueueRuns.Step(st.queue, QueueRuns.Requeue(st.pc.held, st.alive));
      match fault
      case NoFault => Some(st.(queue := after, pc := Waiting))
      case FailsBefore => Some(st.(pc := Waiting, pending := st.pending + st.pc.held))
      case FailsAfter => Some(st.(queue := after, pc := Waiting, pending := st.pending + st.pc.held))
  }

  /** A script sees the connections there are. */
  predicate Sees(op: QueueRuns.Op, alive: Presence) {
    op.Pop? || op.Requeue? ==> op.alive == alive
  }

  ghost function Step(st: State, a: Action): Option<State> {
    match a
    case Outside(op) =>
      if QueueRuns.Enabled(st.queue, op) && Sees(op, st.alive) then Some(st.(queue := QueueRuns.Step(st.queue, op)))
      else None
    case Tables(db) => if Evolves(st.db, db) && ClaimsExact(db) then Some(st.(db := db)) else None
    case Connections(alive) => Some(st.(alive := alive))
    case Restore(fault) => RestoreStep(st, fault)
    case Pop(limit, fault) => PopStep(st, limit, fault)
    case Create(fault, duration, now, newId) => CreateStep(st, fault, duration, now, newId)
    case Return(fault) => ReturnStep(st, fault)
    case Crash => Some(st.(pending := [], pc := Waiting))
  }

  ghost function Run(st: State, acts: seq<Action>): Option<State>
    decreases |acts|
  {
    if acts == [] then Some(st)
    else match Step(st, acts[0])
      case None => None
      case Some(next) => Run(next, acts[1..])
  }

  /** The state before action `k` of a run. */
  ghost function StateAt(st: State, acts: seq<Action>, k: nat): State
    requires Run(st, acts).Some? && k <= |acts|
    decreases k
  {
    if k == 0 then st else StateAt(Step(st, acts[0]).value, acts[1..], k - 1)
  }

  // --------------------------------------------------------------------- invariant

  predicate OnePair(s: seq<Slot>) {
    |s| <= 2 && (|s| == 2 ==> s[0].member.user != s[1].member.user)
  }

  ghost predicate Known(queue: QueueRuns.State, s: seq<Slot>) {
    OnePair(s) && forall x | x in s :: x in queue.popped
  }

  /** What is in hand is what was last taken out for its user. */
  ghost predicate Latest(taken: map<Uuid, Slot>, s: seq<Slot>) {
    forall x | x in s :: x.member.user in taken && taken[x.member.user] == x
  }

  ghost predicate Inv(st: State) {
    && QueueRuns.Inv(st.queue) && ClaimsExact(st.db)
    && Known(st.queue, st.pending) && Known(st.queue, Held(st.pc))
    && Latest(st.taken, st.pending) && Latest(st.taken, Held(st.pc))
    && (!st.pc.Waiting? ==> st.pending == [])
  }

  /** A service starting with any reachable queue and any tables. */
  ghost predicate Init(st: State) {
    QueueRuns.Inv(st.queue) && ClaimsExact(st.db) && st.pending == [] && st.pc == Waiting && st.taken == map[]
  }

  lemma QueueLater(queue: QueueRuns.State, op: QueueRuns.Op)
    requires QueueRuns.Inv(queue) && QueueRuns.Enabled(queue, op)
    ensures QueueRuns.Inv(QueueRuns.Step(queue, op)) && queue.popped <= QueueRuns.Step(queue, op).popped
  {
    QueueRuns.StepKeeps(queue, op);
    hide QueueRuns.Inv;
  }

  /** The pair of a pop decodes and names two users. */
  lemma PoppedPair(q: Queue, limit: nat, alive: Presence)
    requires Agree(q)
    ensures var pair := PopTx(q, limit, alive).1;
      && (forall e | e in pair :: e.raw.Encoded?)
      && OnePair(Slots(pair)) && (pair != [] ==> |pair| == 2)
  {
    PopPair.ChosenAreLive(q, limit, alive);
    PopPair.ChosenIsOldest(q, limit, alive);
    PopPair.DistinctFromRanked(q.zset);
    PopPair.PairDistinct(q, limit, alive);
    hide Chosen, Agree, Ranked, DistinctRaws;
  }

  /** Afterwards it is remembered as popped. */
  lemma PoppedIsKnown(queue: QueueRuns.State, limit: nat, alive: Presence)
    requires QueueRuns.Inv(queue)
    ensures var pair := PopTx(queue.q, limit, alive).1;
      && (forall e | e in pair :: e.raw.Encoded?)
      && Known(QueueRuns.Step(queue, QueueRuns.Pop(limit, alive)), Slots(pair))
      && |Slots(pair)| == |pair| && (pair != [] ==> |pair| == 2)
  {
    var pair := PopTx(queue.q, limit, alive).1;
    PoppedPair(queue.q, limit, alive);
    hide QueueRuns.Inv, PopTx;
    forall s | s in Slots(pair) ensures s in QueueRuns.Step(queue, QueueRuns.Pop(limit, alive)).popped {
      var i :| 0 <= i < |pair| && QueueRuns.SlotOf(pair[i]) == s;
      assert pair[i] in pair;
    }
  }

  lemma {:induction false} EligibleMeaning(pair: seq<Slot>, missing: seq<Uuid>, claims: seq<(Uuid, Uuid)>)
    ensures var (back, out) := Eligible(pair, missing, claims);
      && multiset(back) + multiset(out) == multiset(pair) && |back| + |out| == |pair|
      && (forall s | s in back :: s in pair && !Barred(s, missing, claims))
      && (forall s | s in out :: s in pair && Barred(s, missing, claims))
  {
    hide Barred;
    if pair != [] {
      EligibleMeaning(pair[1..], missing, claims);
      assert pair == [pair[0]] + pair[1..];
    }
  }

  // ------------------------------------------------------------------ preservation

  lemma OutsideKeeps(st: State, op: QueueRuns.Op)
    requires Inv(st) && QueueRuns.Enabled(st.queue, op)
    ensures Inv(st.(queue := QueueRuns.Step(st.queue, op)))
  {
    QueueLater(st.queue, op);
    hide QueueRuns.Inv, ClaimsExact, Latest;
  }

  lemma RestoreKeeps(st: State, fault: Fault, st': State)
    requires Inv(st) && RestoreStep(st, fault) == Some(st')
    ensures Inv(st')
  {
    QueueLater(st.queue, QueueRuns.Requeue(st.pending, st.alive));
    hide QueueRuns.Inv, QueueRuns.Step, ClaimsExact;
  }

  /** The state after a pop that took effect. */
  lemma PopShape(st: State, limit: nat, fault: Fault, st': State)
    requires QueueRuns.Inv(st.queue) && PopStep(st, limit, fault) == Some(st') && fault != FailsBefore
    ensures var pair := PopTx(st.queue.q, limit, st.alive).1;
      && (forall e | e in pair :: e.raw.Encoded?)
      && var slots := Slots(pair);
      && st' == st.(queue := QueueRuns.Step(st.queue, QueueRuns.Pop(limit, st.alive)), pc := st'.pc, taken := st'.taken)
      && st'.pc == (if pair == [] || fault == FailsAfter then Waiting else Holding(slots))
      && (pair == [] ==> slots == []) && (pair != [] ==> |slots| == 2) && st'.taken == TakenWith(st.taken, slots)
  {
    PoppedIsKnown(st.queue, limit, st.alive);
    hide QueueRuns.Inv, QueueRuns.Step, PopTx, Slots;
  }

  lemma TakenIsLatest(taken: map<Uuid, Slot>, slots: seq<Slot>)
    requires |slots| == 2 && OnePair(slots)
    ensures Latest(TakenWith(taken, slots), slots)
  {
  }

  lemma EmptyHands(queue: QueueRuns.State, taken: map<Uuid, Slot>)
    ensures Known(queue, []) && Latest(taken, [])
  {
  }

  lemma PopKeeps(st: State, limit: nat, fault: Fault, st': State)
    requires Inv(st) && PopStep(st, limit, fault) == Some(st')
    ensures Inv(st')
  {
    if fault != FailsBefore {
      PopShape(st, limit, fault, st');
      PoppedIsKnown(st.queue, limit, st.alive);
      QueueLater(st.queue, QueueRuns.Pop(limit, st.alive));
      var slots := Slots(PopTx(st.queue.q, limit, st.alive).1);
      assert st.pending == [];
      hide QueueRuns.Inv, QueueRuns.Step, PopTx, Slots, ClaimsExact, PopStep, OnePair, Latest;
      if |slots| == 2 {
        TakenIsLatest(st.taken, slots);
      }
      EmptyHands(st'.queue, st'.taken);
    }
  }

  lemma EligibleOfTwo(pair: seq<Slot>, missing: seq<Uuid>, claims: seq<(Uuid, Uuid)>)
    requires |pair| == 2
    ensures var (back, out) := Eligible(pair, missing, claims);
      back == [] || back == [pair[0]] || back == [pair[1]] || back == pair
  {
    assert Eligible(pair[1..][1..], missing, claims) == ([], []);
    assert [pair[0]] + [pair[1]] == pair && pair[1..][0] == pair[1];
    hide Barred;
  }

  lemma PartKnown(queue: QueueRuns.State, pair: seq<Slot>, back: seq<Slot>)
    requires Known(queue, pair) && |pair| == 2
    requires back == [] || back == [pair[0]] || back == [pair[1]] || back == pair
    ensures Known(queue, back)
  {
  }

  lemma CreateKeeps(st: State, fault: Fault, duration: nat, now: nat, newId: Uuid, st': State)
    requires Inv(st) && CreateStep(st, fault, duration, now, newId) == Some(st')
    ensures Inv(st')
  {
    var pair := st.pc.pair;
    var res := MatchCreation.CreateTx(st.db, pair[0].member.user, pair[1].member.user, duration, now, newId).1;
    CreateGrows(st.db, pair[0].member.user, pair[1].member.user, duration, now, newId);
    hide QueueRuns.Inv, MatchCreation.CreateTx, Eligible, Known, ClaimsExact;
    if fault == NoFault && res.Ineligible? {
      EligibleOfTwo(pair, res.missing, res.claims);
      PartKnown(st.queue, pair, Eligible(pair, res.missing, res.claims).0);
    }
  }

  lemma CreateShape(db: Db, a: Uuid, b: Uuid, duration: nat, now: nat, newId: Uuid)
    requires newId !in db.matches
    ensures var (db', res) := MatchCreation.CreateTx(db, a, b, duration, now, newId);
      if res.Created? then
        && a != b && a !in db.claims && b !in db.claims
        && db' == MatchCreation.Opened(db, a, b, res.problem, now + duration, newId)
      else db' == db
  {
    MatchCreation.CreateMeaning(db, a, b, duration, now, newId);
    hide *;
  }

  /** Creating a match adds claims and takes nothing away. */
  lemma CreateGrows(db: Db, a: Uuid, b: Uuid, duration: nat, now: nat, newId: Uuid)
    requires ClaimsExact(db) && newId !in db.matches
    ensures var db' := MatchCreation.CreateTx(db, a, b, duration, now, newId).0;
      ClaimsExact(db') && db'.users == db.users && db.claims.Keys <= db'.claims.Keys
  {
    hide *;
    CreateShape(db, a, b, duration, now, newId);
    var res := MatchCreation.CreateTx(db, a, b, duration, now, newId).1;
    if res.Created? {
      MatchCreation.OpenedClaims(db, a, b, res.problem, now + duration, newId);
      OpenedGrows(db, a, b, res.problem, now + duration, newId);
    }
  }

  lemma OpenedGrows(db: Db, a: Uuid, b: Uuid, problem: Uuid, deadline: nat, newId: Uuid)
    ensures var db' := MatchCreation.Opened(db, a, b, problem, deadline, newId);
      db'.users == db.users && db.claims.Keys <= db'.claims.Keys
  {
  }

  lemma ReturnKeeps(st: State, fault: Fault, st': State)
    requires Inv(st) && ReturnStep(st, fault) == Some(st')
    ensures Inv(st')
  {
    assert QueueRuns.Inv(st.queue) && QueueRuns.Enabled(st.queue, QueueRuns.Requeue(st.pc.held, st.alive));
    hide QueueRuns.Inv, QueueRuns.Step, QueueRuns.Enabled, ClaimsExact;
    QueueLater(st.queue, QueueRuns.Requeue(st.pc.held, st.alive));
    assert st.pending + st.pc.held == st.pc.held;
    hide OnePair;
  }

  lemma StepKeeps(st: State, a: Action, st': State)
    requires Inv(st) && Step(st, a) == Some(st')
    ensures Inv(st')
  {
    match a {
      case Outside(op) => OutsideKeeps(st, op);
      case Restore(fault) => RestoreKeeps(st, fault, st');
      case Pop(limit, fault) => PopKeeps(st, limit, fault, st');
      case Create(fault, duration, now, newId) => CreateKeeps(st, fault, duration, now, newId, st');
      case Return(fault) => ReturnKeeps(st, fault, st');
      case _ =>
        hide QueueRuns.Inv, ClaimsExact;
    }
  }

  lemma {:induction false} RunKeeps(st: State, acts: seq<Action>)
    requires Inv(st) && Run(st, acts).Some?
    ensures Inv(Run(st, acts).value)
    decreases |acts|
  {
    hide Inv, Step;
    if acts != [] {
      StepKeeps(st, acts[0], Step(st, acts[0]).value);
      RunKeeps(Step(st, acts[0]).value, acts[1..]);
    }
  }

  // ---------------------------------------------------------------- where players are

  /** A returned user is queued again: where they were if they had not queued anew,
      unless they lost presence. */
  predicate BackInQueue(before: map<Uuid, Slot>, after: map<Uuid, Slot>, s: Slot, alive: Presence) {
    Present(alive, s.member) ==>
      s.member.user in after && after[s.member.user] == if s.member.user in before then before[s.member.user] else s
  }

  lemma PairBack(view: map<Uuid, Slot>, entries: seq<Slot>, alive: Presence)
    requires OnePair(entries)
    ensures forall s | s in entries :: BackInQueue(view, QueueRuns.RequeueAllView(view, entries, alive), s, alive)
  {
    if |entries| == 1 {
      assert entries[1..] == [];
      assert QueueRuns.RequeueAllView(view, entries, alive) == RequeueView(view, entries[0], alive);
    } else if |entries| == 2 {
      var tail := entries[1..];
      var first := RequeueView(view, entries[0], alive);
      assert tail == [entries[1]] && tail[1..] == [];
      assert QueueRuns.RequeueAllView(first, tail, alive) == RequeueView(first, entries[1], alive);
    }
  }

  lemma ReturnedMeaning(queue: QueueRuns.State, entries: seq<Slot>, alive: Presence)
    requires QueueRuns.Inv(queue) && Known(queue, entries)
    ensures var queue' := QueueRuns.Step(queue, QueueRuns.Requeue(entries, alive));
      && Agree(queue'.q) && Agree(queue.q)
      && (forall s | s in entries :: BackInQueue(View(queue.q), View(queue'.q), s, alive))
  {
    QueueRuns.RequeueStep(queue, entries, alive);
    PairBack(View(queue.q), entries, alive);
    hide Agree, View, QueueRuns.Step, QueueRuns.RequeueAllView, QueueRuns.Tracked, BackInQueue;
  }

  /** A matched pair sits in one active match, whose claims name both. */
  predicate InMatch(db: Db, m: Uuid, a: Uuid, b: Uuid) {
    && m in db.matches && db.matches[m].status == Active && db.matches[m].players == [a, b]
    && a in db.claims && db.claims[a] == m && b in db.claims && db.claims[b] == m
  }

  /** Barred are exactly the users without a row or with an active match. */
  lemma BarredMeaning(db: Db, a: Uuid, b: Uuid, duration: nat, now: nat, newId: Uuid, s: Slot)
    requires newId !in db.matches && s.member.user in {a, b}
    requires MatchCreation.CreateTx(db, a, b, duration, now, newId).1.Ineligible?
    ensures var res := MatchCreation.CreateTx(db, a, b, duration, now, newId).1;
      Barred(s, res.missing, res.claims) <==> s.member.user !in db.users || s.member.user in db.claims
  {
    MatchCreation.CreateMeaning(db, a, b, duration, now, newId);
    var res := MatchCreation.CreateTx(db, a, b, duration, now, newId).1;
    hide MatchCreation.CreateTx;
    if s.member.user in db.claims {
      assert (s.member.user, db.claims[s.member.user]) in res.claims;
    }
    if Barred(s, res.missing, res.claims) && s.member.user in db.users {
      var c :| c in res.claims && c.0 == s.member.user;
      assert (c.0, c.1) in res.claims;
    }
  }

  /** What a `create` call does with the pair: both are in one active match and
      leave the service's hands; or those dropped have no row or an active match, and
      only users with a row and without a match are kept; or both are kept. */
  lemma CreatePlaces(st: State, duration: nat, now: nat, newId: Uuid, st': State)
    requires CreateStep(st, NoFault, duration, now, newId) == Some(st')
    ensures var pair := st.pc.pair;
      if st'.pc.Waiting? then InMatch(st'.db, newId, pair[0].member.user, pair[1].member.user)
      else
        && st'.pc.Returning? && st'.db == st.db
        && (st'.pc.held == pair
            || (forall s | s in pair ::
                  s in st'.pc.held <==> s.member.user in st.db.users && s.member.user !in st.db.claims))
  {
    var pair := st.pc.pair;
    var a, b := pair[0].member.user, pair[1].member.user;
    hide MatchCreation.CreateTx, Eligible, Barred;
    MatchCreation.CreateMeaning(st.db, a, b, duration, now, newId);
    var (db', res) := MatchCreation.CreateTx(st.db, a, b, duration, now, newId);
    if res.Ineligible? {
      forall s | s in pair
        ensures Barred(s, res.missing, res.claims) <==> s.member.user !in st.db.users || s.member.user in st.db.claims
      {
        BarredMeaning(st.db, a, b, duration, now, newId, s);
      }
      EligibleMeaning(pair, res.missing, res.claims);
      var (back, out) := Eligible(pair, res.missing, res.claims);
      forall s | s in pair ensures s in back || s in out {
        assert s in multiset(pair) && s in multiset(back) + multiset(out);
      }
    }
  }

  /** In the sorted set and in the hash. */
  predicate Queued(q: Queue, u: Uuid) {
    u in q.members && Score(q.zset, q.members[u]).Some?
  }

  lemma QueuedIsInView(q: Queue, u: Uuid)
    requires Agree(q)
    ensures Queued(q, u) <==> u in View(q)
  {
  }

  /** A popped player who needs nothing more from the service: queued again, gone,
      in an active match, or without a row in the tables. */
  predicate Settled(st: State, s: Slot) {
    || Queued(st.queue.q, s.member.user) || !Present(st.alive, s.member)
    || s.member.user in st.db.claims || s.member.user !in st.db.users
  }

  /** How a slot may leave the service's hands. */
  ghost predicate Departs(st: State, a: Action, st': State, s: Slot) {
    match a
    case Create(_, _, _, newId) =>
      && st.pc.Holding? && s in st.pc.pair && |st.pc.pair| == 2 && Settled(st', s)
      && (|| InMatch(st'.db, newId, st.pc.pair[0].member.user, st.pc.pair[1].member.user)
          || s.member.user !in st'.db.users || s.member.user in st'.db.claims)
    case Restore(_) => Back(st, st', s)
    case Return(_) => Back(st, st', s)
    case Crash => true
    case _ => false
  }

  ghost predicate Back(st: State, st': State, s: Slot) {
    && Settled(st', s) && Agree(st.queue.q) && Agree(st'.queue.q)
    && BackInQueue(View(st.queue.q), View(st'.queue.q), s, st'.alive)
  }

  lemma RequeueBrings(queue: QueueRuns.State, entries: seq<Slot>, alive: Presence, s: Slot)
    requires QueueRuns.Inv(queue) && Known(queue, entries) && s in entries
    ensures var q' := QueueRuns.Step(queue, QueueRuns.Requeue(entries, alive)).q;
      && Agree(queue.q) && Agree(q') && BackInQueue(View(queue.q), View(q'), s, alive)
      && (Present(alive, s.member) ==> Queued(q', s.member.user))
  {
    ReturnedMeaning(queue, entries, alive);
    var q' := QueueRuns.Step(queue, QueueRuns.Requeue(entries, alive)).q;
    hide QueueRuns.Inv, QueueRuns.Step, Agree, View, Queued;
    QueuedIsInView(q', s.member.user);
  }

  lemma RestoreDeparts(st: State, fault: Fault, st': State, s: Slot)
    requires Inv(st) && RestoreStep(st, fault) == Some(st') && s in Hands(st) && s !in Hands(st')
    ensures Back(st, st', s)
  {
    RequeueBrings(st.queue, st.pending, st.alive, s);
    hide QueueRuns.Inv, QueueRuns.Step, Agree, View, Queued, ClaimsExact, BackInQueue;
  }

  lemma ReturnDeparts(st: State, fault: Fault, st': State, s: Slot)
    requires Inv(st) && ReturnStep(st, fault) == Some(st') && s in Hands(st) && s !in Hands(st')
    ensures Back(st, st', s)
  {
    RequeueBrings(st.queue, st.pc.held, st.alive, s);
    hide QueueRuns.Inv, QueueRuns.Step, Agree, View, Queued, ClaimsExact, BackInQueue;
  }

  lemma CreateDeparts(st: State, a: Action, st': State, s: Slot)
    requires Inv(st) && a.Create? && Step(st, a) == Some(st') && s in Hands(st) && s !in Hands(st')
    ensures Departs(st, a, st', s)
  {
    hide QueueRuns.Inv, MatchCreation.CreateTx, ClaimsExact, Eligible, Queued, Known;
    if a.fault == NoFault {
      CreatePlaces(st, a.duration, a.now, a.newId, st');
    }
  }

  lemma OthersHold(st: State, a: Action, st': State)
    requires Inv(st) && Step(st, a) == Some(st') && (a.Outside? || a.Tables? || a.Connections? || a.Pop?)
    ensures forall s | s in Hands(st) :: s in Hands(st')
  {
    hide QueueRuns.Inv, QueueRuns.Step, QueueRuns.Enabled, ClaimsExact, Evolves, PopTx;
  }

  /** What leaves the service's hands is settled, unless the process dies. */
  lemma StepDeparts(st: State, a: Action, st': State, s: Slot)
    requires Inv(st) && Step(st, a) == Some(st') && s in Hands(st) && s !in Hands(st')
    ensures Departs(st, a, st', s)
  {
    hide Inv, Back, Settled, InMatch, Hands;
    if a.Restore? {
      RestoreDeparts(st, a.fault, st', s);
    } else if a.Return? {
      ReturnDeparts(st, a.fault, st', s);
    } else if a.Create? {
      CreateDeparts(st, a, st', s);
    } else if !a.Crash? {
      OthersHold(st, a, st');
    }
  }

  /** A pop that takes this slot out of the queue. */
  ghost predicate Takes(st: State, a: Action, s: Slot) {
    && a.Pop? && a.fault != FailsBefore
    && (forall e | e in PopTx(st.queue.q, a.limit, st.alive).1 :: e.raw.Encoded?)
    && s in Slots(PopTx(st.queue.q, a.limit, st.alive).1)
  }

  /** From a state in which it is in hand, a slot stays there through action `j - 1`
      and leaves with action `j`. */
  lemma {:induction false} Leaves(st: State, acts: seq<Action>, s: Slot) returns (j: nat)
    requires Inv(st) && Run(st, acts).Some? && s in Hands(st)
    ensures j <= |acts| && forall k | 0 <= k <= j :: s in Hands(StateAt(st, acts, k))
    ensures j < |acts| ==>
      && s !in Hands(StateAt(st, acts, j + 1))
      && Departs(StateAt(st, acts, j), acts[j], StateAt(st, acts, j + 1), s)
    decreases |acts|
  {
    hide Inv, Step, Departs, Hands;
    j := 0;
    if acts != [] {
      var next := Step(st, acts[0]).value;
      StepKeeps(st, acts[0], next);
      assert StateAt(st, acts, 1) == next;
      if s in Hands(next) {
        var i := Leaves(next, acts[1..], s);
        j := i + 1;
        assert forall k | 0 < k <= j :: StateAt(st, acts, k) == StateAt(next, acts[1..], k - 1);
        forall k | 0 <= k <= j ensures s in Hands(StateAt(st, acts, k)) {
          if k > 0 { assert s in Hands(StateAt(next, acts[1..], k - 1)); }
        }
      } else {
        StepDeparts(st, acts[0], next, s);
      }
    }
  }

  lemma {:induction false} StateAtInv(st: State, acts: seq<Action>, k: nat)
    requires Inv(st) && Run(st, acts).Some? && k <= |acts|
    ensures Inv(StateAt(st, acts, k))
    decreases k
  {
    hide Inv, Step;
    if k > 0 {
      StepKeeps(st, acts[0], Step(st, acts[0]).value);
      StateAtInv(Step(st, acts[0]).value, acts[1..], k - 1);
    }
  }

  lemma {:induction false} StateAtStep(st: State, acts: seq<Action>, k: nat)
    requires Run(st, acts).Some? && k <= |acts|
    ensures k < |acts| ==> Step(StateAt(st, acts, k), acts[k]) == Some(StateAt(st, acts, k + 1))
    ensures Run(StateAt(st, acts, k), acts[k..]).Some? && StateAt(st, acts, |acts|) == Run(st, acts).value
    decreases k
  {
    hide Step;
    if k == 0 {
      assert acts[0..] == acts;
      if acts != [] {
        assert StateAt(st, acts, 1) == Step(st, acts[0]).value;
      }
      EndOfRun(st, acts);
    } else {
      StateAtStep(Step(st, acts[0]).value, acts[1..], k - 1);
      assert acts[1..][k - 1..] == acts[k..];
    }
  }

  lemma {:induction false} EndOfRun(st: State, acts: seq<Action>)
    requires Run(st, acts).Some?
    ensures StateAt(st, acts, |acts|) == Run(st, acts).value
    decreases |acts|
  {
    hide Step;
    if acts != [] { EndOfRun(Step(st, acts[0]).value, acts[1..]); }
  }

  lemma {:induction false} StateAtLater(st: State, acts: seq<Action>, k: nat, i: nat)
    requires Run(st, acts).Some? && k + i <= |acts| && Run(StateAt(st, acts, k), acts[k..]).Some?
    ensures StateAt(StateAt(st, acts, k), acts[k..], i) == StateAt(st, acts, k + i)
    decreases k
  {
    hide Step;
    if k == 0 {
      assert acts[0..] == acts;
    } else {
      assert acts[1..][k - 1..] == acts[k..];
      StateAtLater(Step(st, acts[0]).value, acts[1..], k - 1, i);
    }
  }

  lemma PopHolds(st: State, a: Action, st': State, s: Slot)
    requires Inv(st) && Step(st, a) == Some(st') && Takes(st, a, s)
    ensures if a.Pop? && a.fault == FailsAfter then s !in Hands(st') else s in Hands(st')
  {
    hide QueueRuns.Inv, QueueRuns.Step, ClaimsExact, PopTx;
  }

  /** Over any run, with any calls failing and any interference, a slot this service
      pops at step `i` stays in its hands until some step `j`, and what takes it out
      of them is a match, a refusal for want of a row or because of an active match,
      or a requeue that puts the player back in place unless the connection is gone.
      The only other ways are the lost reply of the pop itself and a crash; see
      `LostPlayers` for who is lost by those. At most one pair is ever pending. */
  lemma NobodyForgotten(st: State, acts: seq<Action>, i: nat, s: Slot) returns (j: nat)
    requires Inv(st) && Run(st, acts).Some? && i < |acts| && Takes(StateAt(st, acts, i), acts[i], s)
    ensures i <= j <= |acts| && forall k | i < k <= j :: s in Hands(StateAt(st, acts, k))
    ensures j < |acts| ==>
      && s !in Hands(StateAt(st, acts, j + 1))
      && (Departs(StateAt(st, acts, j), acts[j], StateAt(st, acts, j + 1), s)
          || (j == i && acts[i].fault == FailsAfter))
    ensures forall k | 0 <= k <= |acts| :: |StateAt(st, acts, k).pending| <= 2
  {
    hide *;
    PendingIsOnePair(st, acts);
    StateAtInv(st, acts, i);
    StateAtInv(st, acts, i + 1);
    StateAtStep(st, acts, i);
    StateAtStep(st, acts, i + 1);
    PopHolds(StateAt(st, acts, i), acts[i], StateAt(st, acts, i + 1), s);
    if acts[i].Pop? && acts[i].fault == FailsAfter {
      j := i;
    } else {
      var mid, rest := StateAt(st, acts, i + 1), acts[i + 1..];
      var n := Leaves(mid, rest, s);
      j := i + 1 + n;
      forall k | i < k <= j ensures s in Hands(StateAt(st, acts, k)) {
        StateAtLater(st, acts, i + 1, k - i - 1);
      }
      if n < |rest| {
        StateAtLater(st, acts, i + 1, n);
        StateAtLater(st, acts, i + 1, n + 1);
        assert rest[n] == acts[j];
      }
    }
  }

  lemma PendingIsOnePair(st: State, acts: seq<Action>)
    requires Inv(st) && Run(st, acts).Some?
    ensures forall k | 0 <= k <= |acts| :: |StateAt(st, acts, k).pending| <= 2
  {
    forall k | 0 <= k <= |acts| ensures |StateAt(st, acts, k).pending| <= 2 {
      StateAtInv(st, acts, k);
      hide QueueRuns.Inv, StateAt, Run;
    }
  }
}
