// Admission against settlement with the locks as explicit state. An `Accept`
// transaction checks first and inserts later, a `finalizeMatches` transaction
// counts, scores and updates in separate statements; each statement sees the
// committed tables, and only the advisory lock and the match row locks keep the
// interleavings apart. Claims, completions, reclaims, enqueue marks and match
// creations of the other services commit in between, each in one step. Every step
// still commits exactly what the atomic transactions would.
module RowLocks {
  import opened Base
  import opened Rows
  import opened RowUpdates
  import opened Submissions
  import opened JudgeStore
  import Dispatch
  import Leases
  import MatchCreation
  import MatchEnd

  datatype Tx =
    // Accept
    | Begun(r: Request)
    | Keyed(r: Request)                      // holds the advisory lock of its key
    | Unknown(r: Request)                    // findRequest found no row
    | Sampled(r: Request, now: nat)          // clock read, waiting for the match row
    | Cleared(r: Request, now: nat)          // match row locked, all checks passed
    | Inserted(r: Request, now: nat, id: Uuid)
    | Answered(result: AcceptResult)
    // finalizeMatches: `held` are the locked matches, `todo` those still to settle
    | Selected(held: seq<Uuid>, todo: seq<Uuid>, staged: seq<(Uuid, Option<Uuid>)>)
    | Counted(held: seq<Uuid>, todo: seq<Uuid>, staged: seq<(Uuid, Option<Uuid>)>)
    | Scored(held: seq<Uuid>, todo: seq<Uuid>, staged: seq<(Uuid, Option<Uuid>)>, scores: seq<nat>)
    | Over

  datatype State = State(
    db: Db, clock: nat,
    keyLocks: map<(Uuid, Uuid), nat>,        // advisory locks: (player, request) -> transaction
    rowLocks: map<Uuid, nat>,                // match row locks: match -> transaction
    txs: map<nat, Tx>,
    drawn: set<Uuid>,                        // submission ids generated so far
    settled: set<Uuid>)                      // matches finished by a finalizeMatches commit

  datatype Action =
    | Tick(delta: nat)
    | Begin(r: Request)
    | TakeKey
    | Find
    | Sample
    | LockMatch
    | Insert(id: Uuid)
    | Select(ids: seq<Uuid>)
    | Count
    | Score
    | Update
    | Commit
    | Rollback
    // transactions of other services, which commit at once
    | ClaimNow(s: Uuid, token: Uuid, lease: nat)
    | CompleteNow(c: Claimed, result: Terminal)
    | ReclaimNow(s: Uuid)
    | MarkNow(s: Uuid)
    | CreateNow(a: Uuid, b: Uuid, duration: nat, newId: Uuid)

  function Key(r: Request): (Uuid, Uuid) {
    (r.player, r.id)
  }

  /** Ending a transaction releases everything it locked. */
  function Release(st: State, t: nat, tx: Tx): State {
    st.(txs := st.txs[t := tx],
        keyLocks := map k | k in st.keyLocks && st.keyLocks[k] != t :: st.keyLocks[k],
        rowLocks := map m | m in st.rowLocks && st.rowLocks[m] != t :: st.rowLocks[m])
  }

  function Go(st: State, t: nat, tx: Tx): State {
    st.(txs := st.txs[t := tx])
  }

  function ApplyStaged(db: Db, staged: seq<(Uuid, Option<Uuid>)>): Db
    decreases |staged|
  {
    if staged == [] then db
    else if staged[0].0 !in db.matches then ApplyStaged(db, staged[1..])
    else ApplyStaged(FinishMatch(db, staged[0].0, staged[0].1), staged[1..])
  }

  function MatchesOf(staged: seq<(Uuid, Option<Uuid>)>): seq<Uuid> {
    seq(|staged|, i requires 0 <= i < |staged| => staged[i].0)
  }

  // ------------------------------------------------------------- the Accept statements

  function TakeKeyStep(st: State, t: nat): Option<State> {
    if t in st.txs && st.txs[t].Begun? && Key(st.txs[t].r) !in st.keyLocks then
      Some(Go(st, t, Keyed(st.txs[t].r)).(keyLocks := st.keyLocks[Key(st.txs[t].r) := t]))
    else None
  }

  ghost function FindStep(st: State, t: nat): Option<State> {
    if t in st.txs && st.txs[t].Keyed? then
      match FindRequest(st.db, st.txs[t].r)
      case Absent => Some(Go(st, t, Unknown(st.txs[t].r)))
      case Existing(id) => Some(Release(st, t, Answered(Accepted(id))))
      case Conflicting => Some(Release(st, t, Answered(Refused(IdempotencyConflict))))
    else None
  }

  function SampleStep(st: State, t: nat): Option<State> {
    if t in st.txs && st.txs[t].Unknown? then Some(Go(st, t, Sampled(st.txs[t].r, st.clock))) else None
  }

  /** `SELECT ... FOR UPDATE`: waits while another transaction holds the row. The
      clock may have been read before the wait. */
  function LockMatchStep(st: State, t: nat): Option<State> {
    if t in st.txs && st.txs[t].Sampled? && st.txs[t].r.matchId !in st.rowLocks then
      var r, now := st.txs[t].r, st.txs[t].now;
      match Gate(st.db, r, now)
      case Some(e) => Some(Release(st, t, Answered(Refused(e))))
      case None => Some(Go(st, t, Cleared(r, now)).(rowLocks := st.rowLocks[r.matchId := t]))
    else None
  }

  function InsertStep(st: State, t: nat, id: Uuid): Option<State> {
    if t in st.txs && st.txs[t].Cleared? && id != NIL && id !in st.drawn then
      Some(Go(st, t, Inserted(st.txs[t].r, st.txs[t].now, id)).(drawn := st.drawn + {id}))
    else None
  }

  // ----------------------------------------------------- the finalizeMatches statements

  function SelectStep(st: State, t: nat, ids: seq<Uuid>): Option<State> {
    if t !in st.txs && NoDuplicates(ids)
       && (forall i | 0 <= i < |ids| :: ids[i] in MatchEnd.DueKeys(st.db, st.clock, st.rowLocks.Keys)) then
      Some(Go(st, t, Selected(ids, ids, [])).(rowLocks := st.rowLocks + map m | m in ids :: t))
    else None
  }

  function CountStep(st: State, t: nat): Option<State> {
    if t in st.txs && st.txs[t].Selected? && st.txs[t].todo != [] then
      var tx := st.txs[t];
      if MatchEnd.OpenSubs(st.db, tx.todo[0]) != {} || tx.todo[0] !in st.db.matches
         || !MatchEnd.PlayersUsable(st.db.matches[tx.todo[0]].players) then
        Some(Go(st, t, Selected(tx.held, tx.todo[1..], tx.staged)))
      else Some(Go(st, t, Counted(tx.held, tx.todo, tx.staged)))
    else None
  }

  function ScoreStep(st: State, t: nat): Option<State> {
    if t in st.txs && st.txs[t].Counted? && st.txs[t].todo != [] && st.txs[t].todo[0] in st.db.matches
       && |st.db.matches[st.txs[t].todo[0]].players| == 2 then
      var tx := st.txs[t];
      Some(Go(st, t, Scored(tx.held, tx.todo, tx.staged, MatchEnd.BestScores(st.db, tx.todo[0]))))
    else None
  }

  /** The conditional UPDATE, not visible to others before the commit. */
  function UpdateStep(st: State, t: nat): Option<State> {
    if t in st.txs && st.txs[t].Scored? && st.txs[t].todo != [] && st.txs[t].todo[0] in st.db.matches
       && |st.db.matches[st.txs[t].todo[0]].players| == 2 && |st.txs[t].scores| == 2 then
      var tx := st.txs[t];
      var m := tx.todo[0];
      var winner := MatchEnd.DecideTiebreak(st.db.matches[m].players, tx.scores);
      var staged := if st.db.matches[m].status == Active && st.db.matches[m].winner.None?
                    then tx.staged + [(m, winner)] else tx.staged;
      Some(Go(st, t, Selected(tx.held, tx.todo[1..], staged)))
    else None
  }

  function CommitStep(st: State, t: nat): Option<State> {
    if t in st.txs then
      match st.txs[t]
      case Inserted(r, now, id) =>
        Some(Release(st, t, Answered(Accepted(id))).(db := WithSub(st.db, id, NewRow(r, now))))
      case Selected(held, todo, staged) =>
        if todo != [] then None
        else Some(Release(st, t, Over).(db := ApplyStaged(st.db, staged),
                                        settled := st.settled + Elements(MatchesOf(staged))))
      case _ => None
    else None
  }

  ghost function Step(max: nat, st: State, t: nat, a: Action): Option<State> {
    match a
    case Tick(delta) => Some(st.(clock := st.clock + delta))
    case Begin(r) =>
      if t in st.txs then None
      else if !ValidRequest(r) then Some(Go(st, t, Answered(Refused(InvalidRequest))))
      else Some(Go(st, t, Begun(r)))
    case TakeKey => TakeKeyStep(st, t)
    case Find => FindStep(st, t)
    case Sample => SampleStep(st, t)
    case LockMatch => LockMatchStep(st, t)
    case Insert(id) => InsertStep(st, t, id)
    case Select(ids) => SelectStep(st, t, ids)
    case Count => CountStep(st, t)
    case Score => ScoreStep(st, t)
    case Update => UpdateStep(st, t)
    case Commit => CommitStep(st, t)
    case Rollback => if t in st.txs && !st.txs[t].Answered? then Some(Release(st, t, Over)) else None
    case ClaimNow(s, token, lease) => Some(st.(db := ClaimTx(st.db, s, token, lease, st.clock).0))
    case CompleteNow(c, result) =>
      if ClaimFits(st.db, c) && c.matchId !in st.rowLocks then
        Some(st.(db := CompleteTx(st.db, c, result, st.clock).0))
      else None
    case ReclaimNow(s) => Some(st.(db := Leases.ReclaimRow(st.db, s, max, st.clock)))
    case MarkNow(s) => Some(st.(db := Dispatch.MarkTx(st.db, s, st.clock)))
    case CreateNow(a, b, duration, newId) =>
      if newId == NIL || newId in st.db.matches then None
      else Some(st.(db := MatchCreation.CreateTx(st.db, a, b, duration, st.clock, newId).0))
  }

  ghost function Run(max: nat, st: State, acts: seq<(nat, Action)>): Option<State>
    decreases |acts|
  {
    if acts == [] then Some(st)
    else match Step(max, st, acts[0].0, acts[0].1)
      case None => None
      case Some(next) => Run(max, next, acts[1..])
  }

  /** Any consistent tables, no transaction open. */
  ghost predicate Init(max: nat, st: State) {
    && 0 < max && DbInv(max, st.db)
    && st.keyLocks == map[] && st.rowLocks == map[] && st.txs == map[]
    && st.drawn == st.db.subs.Keys && st.settled == {}
  }

  // ---------------------------------------------------------------------- invariant

  /** A match about to be settled: nothing open, and nothing can be added while it
      stays locked. */
  ghost predicate Settling(db: Db, m: Uuid) {
    && m in db.matches && db.matches[m].status == Active && db.matches[m].winner.None?
    && MatchEnd.PlayersUsable(db.matches[m].players) && AllCompleted(db, m)
  }

  ghost predicate StagedOk(db: Db, staged: seq<(Uuid, Option<Uuid>)>) {
    forall i | 0 <= i < |staged| ::
      Settling(db, staged[i].0)
      && staged[i].1 == MatchEnd.DecideTiebreak(db.matches[staged[i].0].players, MatchEnd.BestScores(db, staged[i].0))
  }

  ghost predicate SettlerFits(db: Db, tx: Tx)
    requires tx.Selected? || tx.Counted? || tx.Scored?
  {
    && NoDuplicates(tx.held)
    && NoDuplicates(MatchesOf(tx.staged) + tx.todo)
    && (forall i | 0 <= i < |tx.held| :: tx.held[i] in db.matches && db.matches[tx.held[i]].status == Active)
    && (forall i | 0 <= i < |tx.todo| :: tx.todo[i] in tx.held)
    && (forall i | 0 <= i < |tx.staged| :: tx.staged[i].0 in tx.held)
    && StagedOk(db, tx.staged)
    && (!tx.Selected? ==> tx.todo != [] && Settling(db, tx.todo[0]))
    && (tx.Scored? ==> tx.scores == MatchEnd.BestScores(db, tx.todo[0]))
  }

  predicate HoldsKey(tx: Tx) {
    tx.Keyed? || tx.Unknown? || tx.Sampled? || tx.Cleared? || tx.Inserted?
  }

  function Holds(tx: Tx): set<Uuid> {
    match tx
    case Cleared(r, _) => {r.matchId}
    case Inserted(r, _, _) => {r.matchId}
    case Selected(held, _, _) => Elements(held)
    case Counted(held, _, _) => Elements(held)
    case Scored(held, _, _, _) => Elements(held)
    case _ => {}
  }

  /** What an open transaction knows of the committed tables. */
  ghost predicate TxFits(db: Db, tx: Tx) {
    && (tx.Begun? || HoldsKey(tx) ==> ValidRequest(tx.r))
    && (HoldsKey(tx) && !tx.Keyed? ==> !KeyUsed(db, tx.r))
    && (tx.Cleared? || tx.Inserted? ==> Gate(db, tx.r, tx.now).None?)
    && (tx.Inserted? ==> tx.id != NIL && tx.id !in db.subs)
    && (tx.Selected? || tx.Counted? || tx.Scored? ==> SettlerFits(db, tx))
  }

  /** A transaction past its advisory lock holds it; so no two share a key. */
  ghost predicate KeysHeld(keyLocks: map<(Uuid, Uuid), nat>, txs: map<nat, Tx>) {
    forall t | t in txs && HoldsKey(txs[t]) :: Key(txs[t].r) in keyLocks && keyLocks[Key(txs[t].r)] == t
  }

  ghost predicate RowsHeld(rowLocks: map<Uuid, nat>, txs: map<nat, Tx>) {
    forall t, m | t in txs && m in Holds(txs[t]) :: m in rowLocks && rowLocks[m] == t
  }

  ghost predicate IdsDrawn(drawn: set<Uuid>, txs: map<nat, Tx>) {
    && (forall t | t in txs && txs[t].Inserted? :: txs[t].id in drawn)
    && (forall t, u | t in txs && u in txs && t != u && txs[t].Inserted? && txs[u].Inserted? :: txs[t].id != txs[u].id)
  }

  ghost predicate LocksInv(st: State) {
    && KeysHeld(st.keyLocks, st.txs) && RowsHeld(st.rowLocks, st.txs) && IdsDrawn(st.drawn, st.txs)
    && st.db.subs.Keys <= st.drawn
  }

  ghost predicate TxsInv(st: State) {
    forall t | t in st.txs :: TxFits(st.db, st.txs[t])
  }

  predicate HasTime(tx: Tx) {
    tx.Sampled? || tx.Cleared? || tx.Inserted?
  }

  /** A time read by a transaction is not in the future. */
  ghost predicate TimesInv(st: State) {
    forall t | t in st.txs && HasTime(st.txs[t]) :: st.txs[t].now <= st.clock
  }

  /** A match settled by the reaper: every submission it ever gets is completed, and
      the recorded outcome is decided by their final scores. */
  ghost predicate SettledFinal(db: Db, m: Uuid) {
    m in db.matches && db.matches[m].status == Finished && AllCompleted(db, m) && MatchEnd.DecidedByScore(db, m)
  }

  ghost predicate FineInv(max: nat, st: State) {
    && 0 < max && DbInv(max, st.db) && LocksInv(st) && TxsInv(st) && TimesInv(st)
    && (forall m | m in st.settled :: SettledFinal(st.db, m))
  }

  // ------------------------------------------------------------------------ frames

  /** The match row is unchanged, and so are its submissions once all are completed. */
  ghost predicate Undisturbed(db: Db, db': Db, m: Uuid) {
    && m in db.matches && m in db'.matches && db'.matches[m] == db.matches[m]
    && (AllCompleted(db, m) ==>
          (&& (forall s | s in db.subs && db.subs[s].matchId == m :: s in db'.subs && db'.subs[s] == db.subs[s])
           && (forall s | s in db'.subs && db'.subs[s].matchId == m :: s in db.subs && db'.subs[s] == db.subs[s])))
  }

  lemma UndisturbedSettling(db: Db, db': Db, m: Uuid)
    requires Settling(db, m) && Undisturbed(db, db', m)
    ensures Settling(db', m) && MatchEnd.BestScores(db', m) == MatchEnd.BestScores(db, m)
  {
    forall p ensures Best(db', m, p) == Best(db, m, p) { BestFrame(db, db', m, p); }
  }

  lemma SettlerFrame(db: Db, db': Db, tx: Tx)
    requires tx.Selected? || tx.Counted? || tx.Scored?
    requires SettlerFits(db, tx)
    requires forall m | m in tx.held && m in db.matches :: Undisturbed(db, db', m)
    ensures SettlerFits(db', tx)
  {
    forall m | m in tx.held && Settling(db, m)
      ensures Settling(db', m) && MatchEnd.BestScores(db', m) == MatchEnd.BestScores(db, m)
      ensures db'.matches[m] == db.matches[m]
    {
      UndisturbedSettling(db, db', m);
    }
    hide Settling, MatchEnd.BestScores, Undisturbed;
    assert tx.todo != [] ==> tx.todo[0] in tx.held;
  }

  /** An open transaction keeps what it knows while others leave alone the key and
      the matches it has locked. */
  lemma TxFrame(db: Db, db': Db, tx: Tx)
    requires TxFits(db, tx)
    requires HoldsKey(tx) && KeyUsed(db', tx.r) ==> KeyUsed(db, tx.r)
    requires tx.Inserted? && tx.id in db'.subs ==> tx.id in db.subs
    requires forall m | m in Holds(tx) && m in db.matches :: Undisturbed(db, db', m)
    ensures TxFits(db', tx)
  {
    hide KeyUsed;
    if tx.Selected? || tx.Counted? || tx.Scored? {
      forall m | m in tx.held && m in db.matches ensures Undisturbed(db, db', m) { assert m in Holds(tx); }
      SettlerFrame(db, db', tx);
    } else if tx.Cleared? || tx.Inserted? {
      assert tx.r.matchId in Holds(tx);
      assert Undisturbed(db, db', tx.r.matchId);
    }
  }

  /** Rewriting a row that is not completed disturbs no settling match. */
  lemma OpenRowUndisturbed(db: Db, db': Db, s: Uuid, m: Uuid)
    requires OnlySub(db, db', s) && m in db.matches
    ensures Undisturbed(db, db', m)
  {
  }

  lemma SettledLater(db: Db, db': Db, m: Uuid)
    requires SettledFinal(db, m) && Evolves(db, db')
    ensures SettledFinal(db', m) && SubsOf(db', m) == SubsOf(db, m) && db'.matches[m] == db.matches[m]
    ensures forall p :: Best(db', m, p) == Best(db, m, p)
  {
    forall s | s in db'.subs && db'.subs[s].matchId == m
      ensures s in db.subs && db'.subs[s] == db.subs[s]
    {
      if s in db.subs { assert SameRequest(db.subs[s], db'.subs[s]); }
    }
    assert SameCompleted(db, db', m);
    forall p ensures Best(db', m, p) == Best(db, m, p) { BestFrame(db, db', m, p); }
    hide Best;
  }

  // --------------------------------------------------------------- one step, by kind

  lemma KeysKept(locks: map<(Uuid, Uuid), nat>, locks': map<(Uuid, Uuid), nat>, txs: map<nat, Tx>, t: nat, tx: Tx)
    requires KeysHeld(locks, txs)
    requires forall k | k in locks && locks[k] != t :: k in locks' && locks'[k] == locks[k]
    requires HoldsKey(tx) ==> Key(tx.r) in locks' && locks'[Key(tx.r)] == t
    ensures KeysHeld(locks', txs[t := tx])
  {
  }

  lemma RowsKept(locks: map<Uuid, nat>, locks': map<Uuid, nat>, txs: map<nat, Tx>, t: nat, tx: Tx)
    requires RowsHeld(locks, txs)
    requires forall m | m in locks && locks[m] != t :: m in locks' && locks'[m] == locks[m]
    requires forall m | m in Holds(tx) :: m in locks' && locks'[m] == t
    ensures RowsHeld(locks', txs[t := tx])
  {
  }

  lemma DrawnKept(drawn: set<Uuid>, txs: map<nat, Tx>, t: nat, tx: Tx)
    requires IdsDrawn(drawn, txs)
    requires tx.Inserted? ==> tx.id !in drawn
    ensures IdsDrawn(drawn + (if tx.Inserted? then {tx.id} else {}), txs[t := tx])
  {
  }

  /** The bookkeeping of any step: transaction `t` moves to `tx`, gives up whatever
      locks it likes and takes only free ones. */
  ghost predicate Moved(st: State, t: nat, tx: Tx, st': State) {
    && st'.txs == st.txs[t := tx]
    && st'.drawn == st.drawn + (if tx.Inserted? then {tx.id} else {})
    && (tx.Inserted? ==> tx.id !in st.drawn)
    && (forall k | k in st.keyLocks && st.keyLocks[k] != t :: k in st'.keyLocks && st'.keyLocks[k] == st.keyLocks[k])
    && (forall m | m in st.rowLocks && st.rowLocks[m] != t :: m in st'.rowLocks && st'.rowLocks[m] == st.rowLocks[m])
    && (HoldsKey(tx) ==> Key(tx.r) in st'.keyLocks && st'.keyLocks[Key(tx.r)] == t)
    && (forall m | m in Holds(tx) :: m in st'.rowLocks && st'.rowLocks[m] == t)
  }

  lemma MovedKeeps(st: State, t: nat, tx: Tx, st': State)
    requires LocksInv(st) && TxsInv(st) && Moved(st, t, tx, st')
    requires st'.db == st.db && TxFits(st.db, tx)
    ensures LocksInv(st') && TxsInv(st')
  {
    KeysKept(st.keyLocks, st'.keyLocks, st.txs, t, tx);
    RowsKept(st.rowLocks, st'.rowLocks, st.txs, t, tx);
    DrawnKept(st.drawn, st.txs, t, tx);
    hide KeysHeld, RowsHeld, IdsDrawn, TxFits, Holds;
  }

  lemma TakeKeyMoves(st: State, t: nat, st': State)
    requires LocksInv(st) && TxsInv(st) && TakeKeyStep(st, t) == Some(st')
    ensures t in st'.txs && Moved(st, t, st'.txs[t], st') && TxFits(st.db, st'.txs[t]) && st'.db == st.db
  {
  }

  lemma FindMoves(st: State, t: nat, st': State)
    requires LocksInv(st) && TxsInv(st) && FindStep(st, t) == Some(st')
    ensures t in st'.txs && Moved(st, t, st'.txs[t], st') && TxFits(st.db, st'.txs[t]) && st'.db == st.db
  {
  }

  lemma SampleMoves(st: State, t: nat, st': State)
    requires LocksInv(st) && TxsInv(st) && SampleStep(st, t) == Some(st')
    ensures t in st'.txs && Moved(st, t, st'.txs[t], st') && TxFits(st.db, st'.txs[t]) && st'.db == st.db
  {
  }

  lemma LockMatchMoves(st: State, t: nat, st': State)
    requires LocksInv(st) && TxsInv(st) && LockMatchStep(st, t) == Some(st')
    ensures t in st'.txs && Moved(st, t, st'.txs[t], st') && TxFits(st.db, st'.txs[t]) && st'.db == st.db
  {
    assert TxFits(st.db, st.txs[t]);
    assert HoldsKey(st.txs[t]) ==> Key(st.txs[t].r) in st.keyLocks && st.keyLocks[Key(st.txs[t].r)] == t;
    hide TxsInv, LocksInv, KeyUsed, Gate, SettlerFits;
  }

  lemma InsertMoves(st: State, t: nat, id: Uuid, st': State)
    requires LocksInv(st) && TxsInv(st) && InsertStep(st, t, id) == Some(st')
    ensures t in st'.txs && Moved(st, t, st'.txs[t], st') && TxFits(st.db, st'.txs[t]) && st'.db == st.db
  {
  }

  lemma SelectMoves(st: State, t: nat, ids: seq<Uuid>, st': State)
    requires SelectStep(st, t, ids) == Some(st')
    ensures t in st'.txs && Moved(st, t, st'.txs[t], st') && TxFits(st.db, st'.txs[t]) && st'.db == st.db
  {
  }

  lemma SettlerTail(db: Db, held: seq<Uuid>, todo: seq<Uuid>, staged: seq<(Uuid, Option<Uuid>)>)
    requires todo != [] && SettlerFits(db, Selected(held, todo, staged))
    ensures SettlerFits(db, Selected(held, todo[1..], staged))
  {
    var before, after := MatchesOf(staged) + todo, MatchesOf(staged) + todo[1..];
    forall i, j | 0 <= i < j < |after| ensures after[i] != after[j] {
      var i', j' := if i < |staged| then i else i + 1, if j < |staged| then j else j + 1;
      assert before[i'] == after[i] && before[j'] == after[j];
    }
    hide StagedOk, Settling;
  }

  lemma SettlerStaged(db: Db, held: seq<Uuid>, todo: seq<Uuid>, staged: seq<(Uuid, Option<Uuid>)>, w: Option<Uuid>)
    requires todo != [] && SettlerFits(db, Selected(held, todo, staged)) && Settling(db, todo[0])
    requires w == MatchEnd.DecideTiebreak(db.matches[todo[0]].players, MatchEnd.BestScores(db, todo[0]))
    ensures SettlerFits(db, Selected(held, todo[1..], staged + [(todo[0], w)]))
  {
    assert MatchesOf(staged + [(todo[0], w)]) + todo[1..] == MatchesOf(staged) + todo;
    hide Settling, MatchEnd.BestScores, MatchEnd.DecideTiebreak;
  }

  /** A held match without open submissions is ready to settle. */
  lemma CountedSettles(max: nat, db: Db, tx: Tx)
    requires DbInv(max, db) && tx.Selected? && SettlerFits(db, tx) && tx.todo != []
    requires MatchEnd.OpenSubs(db, tx.todo[0]) == {}
    ensures Settling(db, tx.todo[0])
  {
    var m := tx.todo[0];
    assert m in tx.held && m in db.matches && db.matches[m].status == Active;
    MatchEnd.AllSettled(db, m);
    assert Standing(db, m) && MatchOk(db, db.matches[m]);
  }

  /** Going on within the loop keeps every lock. */
  lemma SettlerMoved(st: State, t: nat, tx: Tx)
    requires LocksInv(st) && t in st.txs && Holds(tx) == Holds(st.txs[t]) && !HoldsKey(tx)
    ensures Moved(st, t, tx, Go(st, t, tx))
  {
  }

  lemma CountMoves(max: nat, st: State, t: nat, st': State)
    requires LocksInv(st) && TxsInv(st) && DbInv(max, st.db) && CountStep(st, t) == Some(st')
    ensures t in st'.txs && Moved(st, t, st'.txs[t], st') && TxFits(st.db, st'.txs[t]) && st'.db == st.db
  {
    hide DbInv, LocksInv, Moved, StagedOk, Settling, NoDuplicates;
    var tx, tx' := st.txs[t], st'.txs[t];
    assert TxFits(st.db, tx);
    hide TxsInv;
    SettlerMoved(st, t, tx');
    if tx'.Selected? { SettlerTail(st.db, tx.held, tx.todo, tx.staged); } else { CountedSettles(max, st.db, tx); }
  }

  lemma ScoreMoves(st: State, t: nat, st': State)
    requires LocksInv(st) && TxsInv(st) && ScoreStep(st, t) == Some(st')
    ensures t in st'.txs && Moved(st, t, st'.txs[t], st') && TxFits(st.db, st'.txs[t]) && st'.db == st.db
  {
    assert TxFits(st.db, st.txs[t]);
    SettlerMoved(st, t, st'.txs[t]);
    hide LocksInv, TxsInv, Moved, StagedOk, Settling, NoDuplicates, MatchEnd.BestScores;
  }

  lemma UpdateMoves(st: State, t: nat, st': State)
    requires LocksInv(st) && TxsInv(st) && UpdateStep(st, t) == Some(st')
    ensures t in st'.txs && Moved(st, t, st'.txs[t], st') && TxFits(st.db, st'.txs[t]) && st'.db == st.db
  {
    var tx := st.txs[t];
    assert TxFits(st.db, tx) && Settling(st.db, tx.todo[0]);
    var w := MatchEnd.DecideTiebreak(st.db.matches[tx.todo[0]].players, tx.scores);
    var tx' := Selected(tx.held, tx.todo[1..], tx.staged + [(tx.todo[0], w)]);
    assert st' == Go(st, t, tx');
    hide LocksInv, TxsInv, StagedOk, MatchEnd.BestScores, MatchEnd.DecideTiebreak, Settling, UpdateStep;
    SettlerMoved(st, t, tx');
    SettlerStaged(st.db, tx.held, tx.todo, tx.staged, w);
    hide SettlerFits, Moved;
  }

  // ---------------------------------------------------- steps that commit to the tables

  /** A commit by `t` is invisible to another transaction's knowledge if it touches
      only matches the other has not locked and adds no row with the other's key. */
  lemma OtherFrame(st: State, u: nat, db': Db, touched: set<Uuid>, added: set<Uuid>)
    requires LocksInv(st) && TxsInv(st) && u in st.txs
    requires forall m | m in st.db.matches && m !in touched :: Undisturbed(st.db, db', m)
    requires touched !! Holds(st.txs[u])
    requires forall s | s in db'.subs && s !in added :: s in st.db.subs && SameRequest(st.db.subs[s], db'.subs[s])
    requires forall s | s in added && s in db'.subs && HoldsKey(st.txs[u]) :: !HasKey(db'.subs[s], st.txs[u].r)
    requires st.txs[u].Inserted? ==> st.txs[u].id !in added
    ensures TxFits(db', st.txs[u])
  {
    var tx := st.txs[u];
    assert TxFits(st.db, tx);
    if HoldsKey(tx) && KeyUsed(db', tx.r) {
      var s :| s in db'.subs && HasKey(db'.subs[s], tx.r);
      assert s in st.db.subs && HasKey(st.db.subs[s], tx.r);
    }
    hide Undisturbed, SettlerFits, TxFits;
    TxFrame(st.db, db', tx);
  }

  /** Services that lock and commit at once: claim, complete, reclaim, mark and create. */
  lemma ServiceFrame(st: State, db': Db, touched: set<Uuid>)
    requires LocksInv(st) && TxsInv(st) && touched !! st.rowLocks.Keys
    requires forall m | m in st.db.matches && m !in touched :: Undisturbed(st.db, db', m)
    requires db'.subs.Keys == st.db.subs.Keys
    requires forall s | s in db'.subs :: SameRequest(st.db.subs[s], db'.subs[s])
    ensures LocksInv(st.(db := db')) && TxsInv(st.(db := db'))
  {
    forall u | u in st.txs ensures TxFits(db', st.txs[u]) {
      forall m | m in Holds(st.txs[u]) ensures m !in touched { assert m in st.rowLocks; }
      hide Undisturbed, TxFits, LocksInv, TxsInv;
      OtherFrame(st, u, db', touched, {});
    }
    hide TxFits, Undisturbed;
  }

  lemma ClaimIsOnlySub(max: nat, db: Db, s: Uuid, token: Uuid, lease: nat, now: nat)
    requires DbInv(max, db)
    ensures var db' := ClaimTx(db, s, token, lease, now).0; db' == db || OnlySub(db, db', s)
  {
    ClaimMeaning(max, db, s, token, lease, now);
    hide DbInv;
  }

  lemma OnlySubRequests(db: Db, db': Db, s: Uuid)
    requires OnlySub(db, db', s)
    ensures db'.subs.Keys == db.subs.Keys && forall t | t in db'.subs :: SameRequest(db.subs[t], db'.subs[t])
  {
  }

  lemma ClaimFrame(max: nat, st: State, s: Uuid, token: Uuid, lease: nat)
    requires LocksInv(st) && TxsInv(st) && DbInv(max, st.db)
    ensures var st' := st.(db := ClaimTx(st.db, s, token, lease, st.clock).0); LocksInv(st') && TxsInv(st')
  {
    var db' := ClaimTx(st.db, s, token, lease, st.clock).0;
    ClaimIsOnlySub(max, st.db, s, token, lease, st.clock);
    hide LocksInv, TxsInv, DbInv, OnlySub, ClaimTx, Undisturbed;
    if db' != st.db {
      assert db'.subs.Keys == st.db.subs.Keys
          && forall t | t in db'.subs :: SameRequest(st.db.subs[t], db'.subs[t]) by {
        OnlySubRequests(st.db, db', s);
      }
      forall m | m in st.db.matches ensures Undisturbed(st.db, db', m) { OpenRowUndisturbed(st.db, db', s, m); }
      ServiceFrame(st, db', {});
    }
  }

  lemma ReclaimFrame(max: nat, st: State, s: Uuid)
    requires LocksInv(st) && TxsInv(st)
    ensures var st' := st.(db := Leases.ReclaimRow(st.db, s, max, st.clock)); LocksInv(st') && TxsInv(st')
  {
    var db' := Leases.ReclaimRow(st.db, s, max, st.clock);
    if db' != st.db {
      assert OnlySub(st.db, db', s);
      forall m | m in st.db.matches ensures Undisturbed(st.db, db', m) { OpenRowUndisturbed(st.db, db', s, m); }
      hide Leases.ReclaimRow, Undisturbed, LocksInv, TxsInv;
      ServiceFrame(st, db', {});
    }
  }

  lemma CompleteFrame(max: nat, st: State, c: Claimed, result: Terminal)
    requires LocksInv(st) && TxsInv(st) && ClaimFits(st.db, c) && c.matchId !in st.rowLocks
    ensures var st' := st.(db := CompleteTx(st.db, c, result, st.clock).0); LocksInv(st') && TxsInv(st')
  {
    hide CompleteTx, Undisturbed, LocksInv, TxsInv, ClaimFits;
    CompleteDisturbsOne(st.db, c, result, st.clock);
    ServiceFrame(st, CompleteTx(st.db, c, result, st.clock).0, {c.matchId});
  }

  lemma CompleteDisturbsOne(db: Db, c: Claimed, result: Terminal, now: nat)
    requires ClaimFits(db, c)
    ensures var db' := CompleteTx(db, c, result, now).0;
      && db'.subs.Keys == db.subs.Keys && (forall s | s in db'.subs :: SameRequest(db.subs[s], db'.subs[s]))
      && (forall m | m in db.matches && m !in {c.matchId} :: Undisturbed(db, db', m))
  {
  }

  lemma MarkFrame(st: State, s: Uuid)
    requires LocksInv(st) && TxsInv(st)
    ensures var st' := st.(db := Dispatch.MarkTx(st.db, s, st.clock)); LocksInv(st') && TxsInv(st')
  {
    var db' := Dispatch.MarkTx(st.db, s, st.clock);
    if db' != st.db {
      assert OnlySub(st.db, db', s);
      OnlySubRequests(st.db, db', s);
      forall m | m in st.db.matches ensures Undisturbed(st.db, db', m) { OpenRowUndisturbed(st.db, db', s, m); }
      hide Dispatch.MarkTx, Undisturbed, LocksInv, TxsInv, OnlySub;
      ServiceFrame(st, db', {});
    }
  }

  lemma CreateFrame(st: State, a: Uuid, b: Uuid, duration: nat, newId: Uuid)
    requires LocksInv(st) && TxsInv(st) && newId !in st.db.matches
    ensures var st' := st.(db := MatchCreation.CreateTx(st.db, a, b, duration, st.clock, newId).0);
      LocksInv(st') && TxsInv(st')
  {
    var db' := MatchCreation.CreateTx(st.db, a, b, duration, st.clock, newId).0;
    hide LocksInv, TxsInv, MatchCreation.CreateTx, Undisturbed;
    CreateDisturbsNothing(st.db, a, b, duration, st.clock, newId);
    ServiceFrame(st, db', {});
  }

  /** A new match leaves every other match and every submission alone. */
  lemma CreateDisturbsNothing(db: Db, a: Uuid, b: Uuid, duration: nat, now: nat, newId: Uuid)
    requires newId !in db.matches
    ensures var db' := MatchCreation.CreateTx(db, a, b, duration, now, newId).0;
      db'.subs == db.subs && forall m | m in db.matches :: Undisturbed(db, db', m)
  {
    MatchCreation.CreateMeaning(db, a, b, duration, now, newId);
    hide MatchCreation.CreateTx;
  }

  /** The insert that commits is the insert of the atomic transaction. */
  lemma AcceptCommit(max: nat, st: State, t: nat, st': State)
    requires LocksInv(st) && TxsInv(st) && DbInv(max, st.db) && 0 < max
    requires t in st.txs && st.txs[t].Inserted? && CommitStep(st, t) == Some(st')
    ensures LocksInv(st') && TxsInv(st') && DbInv(max, st'.db) && Evolves(st.db, st'.db)
    ensures AcceptTx(st.db, st.txs[t].r, st.txs[t].now, st.txs[t].id) == (st'.db, Accepted(st.txs[t].id))
  {
    var Inserted(r, now, id) := st.txs[t];
    var db' := WithSub(st.db, id, NewRow(r, now));
    assert TxFits(st.db, st.txs[t]);
    InsertKeeps(max, st.db, r, now, id);
    AcceptCommitFrame(st, t, db');
    assert st' == Release(st.(db := db'), t, Answered(Accepted(id)));
    hide DbInv, Evolves, KeyUsed, TxFits, WithSub;
  }

  lemma AcceptCommitFrame(st: State, t: nat, db': Db)
    requires LocksInv(st) && TxsInv(st) && t in st.txs && st.txs[t].Inserted?
    requires db' == WithSub(st.db, st.txs[t].id, NewRow(st.txs[t].r, st.txs[t].now))
    ensures var st' := Release(st.(db := db'), t, Answered(Accepted(st.txs[t].id))); LocksInv(st') && TxsInv(st')
  {
    hide LocksInv, TxsInv, TxFits, Undisturbed, KeyUsed, Moved;
    var tx := Answered(Accepted(st.txs[t].id));
    var st' := Release(st.(db := db'), t, tx);
    forall u | u in st.txs && u != t ensures TxFits(db', st.txs[u]) {
      OtherOutlivesInsert(st, t, db', u);
    }
    AnsweredFits(db', tx);
    AllFit(st, st', t);
    AnswerMoves(st, db', t, tx);
    InsertedIsDrawn(st, t);
    MovedLocks(st, t, tx, st');
  }

  lemma AllFit(st: State, st': State, t: nat)
    requires t in st'.txs && st'.txs == st.txs[t := st'.txs[t]] && TxFits(st'.db, st'.txs[t])
    requires forall u | u in st.txs && u != t :: TxFits(st'.db, st.txs[u])
    ensures TxsInv(st')
  {
    hide TxFits;
  }

  lemma AnswerMoves(st: State, db': Db, t: nat, tx: Tx)
    requires tx.Answered?
    ensures Moved(st, t, tx, Release(st.(db := db'), t, tx))
  {
  }

  lemma InsertedIsDrawn(st: State, t: nat)
    requires LocksInv(st) && t in st.txs && st.txs[t].Inserted?
    ensures st.txs[t].id in st.drawn && st.db.subs.Keys <= st.drawn
  {
  }

  lemma AnsweredFits(db: Db, tx: Tx)
    requires tx.Answered?
    ensures TxFits(db, tx)
  {
  }

  /** The locks of the inserting transaction keep the others' knowledge intact. */
  lemma OtherOutlivesInsert(st: State, t: nat, db': Db, u: nat)
    requires LocksInv(st) && TxsInv(st) && t in st.txs && st.txs[t].Inserted? && u in st.txs && u != t
    requires db' == WithSub(st.db, st.txs[t].id, NewRow(st.txs[t].r, st.txs[t].now))
    ensures TxFits(db', st.txs[u])
  {
    var r, id := st.txs[t].r, st.txs[t].id;
    hide TxsInv;
    assert r.matchId in Holds(st.txs[t]) && st.rowLocks[r.matchId] == t;
    assert st.keyLocks[Key(r)] == t;
    assert HoldsKey(st.txs[u]) ==> Key(st.txs[u].r) != Key(r);
    assert st.txs[u].Inserted? ==> st.txs[u].id != id;
    assert {r.matchId} !! Holds(st.txs[u]);
    assert id !in st.db.subs by { InsertedIsNew(st, t); }
    InsertDisturbsOne(st.db, id, st.txs[t].r, st.txs[t].now);
    hide LocksInv, Undisturbed, TxFits, KeyUsed, KeysHeld, RowsHeld, IdsDrawn;
    OtherFrame(st, u, db', {r.matchId}, {id});
  }

  lemma InsertedIsNew(st: State, t: nat)
    requires TxsInv(st) && t in st.txs && st.txs[t].Inserted?
    ensures st.txs[t].id !in st.db.subs
  {
    assert TxFits(st.db, st.txs[t]);
  }

  lemma InsertDisturbsOne(db: Db, id: Uuid, r: Request, now: nat)
    requires id !in db.subs
    ensures forall m | m in db.matches && m !in {r.matchId} :: Undisturbed(db, WithSub(db, id, NewRow(r, now)), m)
  {
  }

  lemma MovedLocks(st: State, t: nat, tx: Tx, st': State)
    requires LocksInv(st) && Moved(st, t, tx, st') && st'.db.subs.Keys <= st'.drawn
    ensures LocksInv(st')
  {
    KeysKept(st.keyLocks, st'.keyLocks, st.txs, t, tx);
    RowsKept(st.rowLocks, st'.rowLocks, st.txs, t, tx);
    DrawnKept(st.drawn, st.txs, t, tx);
    hide KeysHeld, RowsHeld, IdsDrawn, Holds;
  }

  /** Committing the staged results is settling those matches one atomic transaction
      after the other, and leaves each of them final. */
  lemma {:induction false} StagedCommit(max: nat, db: Db, staged: seq<(Uuid, Option<Uuid>)>)
    requires DbInv(max, db) && StagedOk(db, staged) && NoDuplicates(MatchesOf(staged))
    ensures var db' := ApplyStaged(db, staged);
      && db' == MatchEnd.FinalizeAll(db, MatchesOf(staged))
      && DbInv(max, db') && Evolves(db, db') && db'.subs == db.subs
      && (forall m | m in db.matches && m !in MatchesOf(staged) :: db'.matches[m] == db.matches[m])
      && (forall m | m in MatchesOf(staged) :: SettledFinal(db', m))
    decreases |staged|
  {
    hide DbInv, Evolves, Settling, SettledFinal;
    if staged == [] {
      EvolvesReflexive(db);
    } else {
      var m, w := staged[0].0, staged[0].1;
      assert Settling(db, m);
      SettlingIsMatch(db, m);
      var mid := FinishMatch(db, m, w);
      FirstSettled(max, db, m, w);
      StagedTail(db, mid, staged);
      assert MatchesOf(staged) == [m] + MatchesOf(staged[1..]);
      hide StagedOk, FinishMatch, NoDuplicates;
      StagedCommit(max, mid, staged[1..]);
      var db' := ApplyStaged(db, staged);
      EvolvesTransitive(db, mid, db');
      SettledLater(mid, db', m);
      assert MatchesOf(staged)[1..] == MatchesOf(staged[1..]);
    }
  }

  lemma SettlingIsMatch(db: Db, m: Uuid)
    requires Settling(db, m)
    ensures m in db.matches
  {
  }

  lemma FirstSettled(max: nat, db: Db, m: Uuid, w: Option<Uuid>)
    requires DbInv(max, db) && Settling(db, m)
    requires w == MatchEnd.DecideTiebreak(db.matches[m].players, MatchEnd.BestScores(db, m))
    ensures var mid := FinishMatch(db, m, w);
      MatchEnd.FinalizeTx(db, m).0 == mid && DbInv(max, mid) && Evolves(db, mid) && SettledFinal(mid, m)
  {
    var mid := FinishMatch(db, m, w);
    MatchEnd.AllSettled(db, m);
    MatchEnd.FinalizeKeeps(max, db, m);
    MatchEnd.FairlyDecided(db, m);
    hide DbInv, Evolves, MatchEnd.DecidedByScore, MatchEnd.BestScores, MatchEnd.DecideTiebreak;
    assert AllCompleted(mid, m);
  }

  lemma StagedTail(db: Db, mid: Db, staged: seq<(Uuid, Option<Uuid>)>)
    requires staged != [] && StagedOk(db, staged) && NoDuplicates(MatchesOf(staged))
    requires staged[0].0 in db.matches && mid == FinishMatch(db, staged[0].0, staged[0].1)
    ensures StagedOk(mid, staged[1..]) && NoDuplicates(MatchesOf(staged[1..]))
  {
    var rest := staged[1..];
    forall i | 0 <= i < |rest|
      ensures Settling(mid, rest[i].0)
      ensures rest[i].1 == MatchEnd.DecideTiebreak(mid.matches[rest[i].0].players, MatchEnd.BestScores(mid, rest[i].0))
    {
      assert rest[i] == staged[i + 1] && MatchesOf(staged)[i + 1] != MatchesOf(staged)[0];
      assert Settling(db, staged[i + 1].0);
      UndisturbedSettling(db, mid, rest[i].0);
      hide MatchEnd.BestScores, MatchEnd.DecideTiebreak, Settling;
    }
    assert MatchesOf(rest) == MatchesOf(staged)[1..];
  }

  lemma SettleCommit(max: nat, st: State, t: nat, st': State)
    requires LocksInv(st) && TxsInv(st) && DbInv(max, st.db)
    requires t in st.txs && st.txs[t].Selected? && CommitStep(st, t) == Some(st')
    ensures LocksInv(st') && TxsInv(st') && DbInv(max, st'.db) && Evolves(st.db, st'.db)
    ensures st'.db == MatchEnd.FinalizeAll(st.db, MatchesOf(st.txs[t].staged))
    ensures st'.settled == st.settled + Elements(MatchesOf(st.txs[t].staged))
    ensures forall m | m in MatchesOf(st.txs[t].staged) :: SettledFinal(st'.db, m)
  {
    var Selected(held, todo, staged) := st.txs[t];
    assert TxFits(st.db, st.txs[t]);
    assert MatchesOf(staged) + todo == MatchesOf(staged);
    StagedCommit(max, st.db, staged);
    SettleCommitFrame(st, t, st'.db);
    hide DbInv, Evolves, LocksInv, TxsInv, TxFits, ApplyStaged, SettledFinal;
    assert st' == Release(st.(db := st'.db), t, Over).(settled := st'.settled);
    SameLocks(Release(st.(db := st'.db), t, Over), st');
  }

  lemma SameLocks(a: State, b: State)
    requires b == a.(settled := b.settled) && LocksInv(a) && TxsInv(a)
    ensures LocksInv(b) && TxsInv(b)
  {
  }

  /** Only the committing transaction has the settled matches locked. */
  lemma StagedAreOwn(st: State, t: nat, u: nat)
    requires RowsHeld(st.rowLocks, st.txs) && t in st.txs && u in st.txs && u != t
    requires st.txs[t].Selected? && SettlerFits(st.db, st.txs[t])
    ensures Elements(MatchesOf(st.txs[t].staged)) !! Holds(st.txs[u])
  {
    var staged := st.txs[t].staged;
    forall m | m in MatchesOf(staged) ensures m !in Holds(st.txs[u]) {
      var i :| 0 <= i < |staged| && staged[i].0 == m;
      assert m in Holds(st.txs[t]) && m in st.rowLocks && st.rowLocks[m] == t;
    }
  }

  lemma SettleCommitFrame(st: State, t: nat, db': Db)
    requires LocksInv(st) && TxsInv(st) && t in st.txs && st.txs[t].Selected?
    requires db'.subs == st.db.subs && Evolves(st.db, db')
    requires forall m | m in st.db.matches && m !in MatchesOf(st.txs[t].staged) :: db'.matches[m] == st.db.matches[m]
    ensures var st' := Release(st.(db := db'), t, Over); LocksInv(st') && TxsInv(st')
  {
    var touched := Elements(MatchesOf(st.txs[t].staged));
    assert TxFits(st.db, st.txs[t]);
    forall m | m in st.db.matches && m !in touched ensures Undisturbed(st.db, db', m) {}
    hide Undisturbed, Evolves, MatchesOf, SettlerFits, Elements;
    assert forall s | s in db'.subs :: SameRequest(st.db.subs[s], db'.subs[s]);
    forall u | u in st.txs && u != t ensures TxFits(db', st.txs[u]) {
      StagedAreOwn(st, t, u);
      hide TxFits, TxsInv, LocksInv;
      OtherFrame(st, u, db', touched, {});
    }
    assert TxFits(db', Over);
    hide TxFits;
    MovedLocks(st, t, Over, Release(st.(db := db'), t, Over));
  }

  // --------------------------------------------------------------------- whole steps

  /** The atomic transaction that takes effect at a step. */
  datatype Op =
    | Nothing
    | DoAccept(r: Request, now: nat, id: Uuid)
    | DoSettle(ids: seq<Uuid>)
    | DoClaim(s: Uuid, token: Uuid, lease: nat, now: nat)
    | DoComplete(c: Claimed, result: Terminal, now: nat)
    | DoReclaim(s: Uuid, now: nat)
    | DoMark(s: Uuid, now: nat)
    | DoCreate(a: Uuid, b: Uuid, duration: nat, now: nat, newId: Uuid)

  ghost function Apply(max: nat, db: Db, op: Op): Db {
    match op
    case Nothing => db
    case DoAccept(r, now, id) => AcceptTx(db, r, now, id).0
    case DoSettle(ids) => MatchEnd.FinalizeAll(db, ids)
    case DoClaim(s, token, lease, now) => ClaimTx(db, s, token, lease, now).0
    case DoComplete(c, result, now) => CompleteTx(db, c, result, now).0
    case DoReclaim(s, now) => Leases.ReclaimRow(db, s, max, now)
    case DoMark(s, now) => Dispatch.MarkTx(db, s, now)
    case DoCreate(a, b, duration, now, newId) => MatchCreation.CreateTx(db, a, b, duration, now, newId).0
  }

  function OpOf(st: State, t: nat, a: Action): Op {
    match a
    case ClaimNow(s, token, lease) => DoClaim(s, token, lease, st.clock)
    case CompleteNow(c, result) => DoComplete(c, result, st.clock)
    case ReclaimNow(s) => DoReclaim(s, st.clock)
    case MarkNow(s) => DoMark(s, st.clock)
    case CreateNow(a, b, duration, newId) => DoCreate(a, b, duration, st.clock, newId)
    case Commit =>
      if t !in st.txs then Nothing
      else if st.txs[t].Inserted? then DoAccept(st.txs[t].r, st.txs[t].now, st.txs[t].id)
      else if st.txs[t].Selected? then DoSettle(MatchesOf(st.txs[t].staged))
      else Nothing
    case _ => Nothing
  }

  lemma QuietStep(max: nat, st: State, t: nat, a: Action, st': State)
    requires LocksInv(st) && TxsInv(st) && DbInv(max, st.db) && Step(max, st, t, a) == Some(st')
    requires a.TakeKey? || a.Find? || a.Sample? || a.LockMatch? || a.Insert? || a.Select? || a.Count? || a.Score?
        || a.Update?
    ensures LocksInv(st') && TxsInv(st') && st'.db == st.db && st'.settled == st.settled
  {
    hide DbInv, LocksInv, TxsInv, Moved, TxFits;
    match a {
      case TakeKey => TakeKeyMoves(st, t, st');
      case Find => FindMoves(st, t, st');
      case Sample => SampleMoves(st, t, st');
      case LockMatch => LockMatchMoves(st, t, st');
      case Insert(id) => InsertMoves(st, t, id, st');
      case Select(ids) => SelectMoves(st, t, ids, st');
      case Count => CountMoves(max, st, t, st');
      case Score => ScoreMoves(st, t, st');
      case Update => UpdateMoves(st, t, st');
    }
    hide TakeKeyStep, FindStep, SampleStep, LockMatchStep, InsertStep, SelectStep, CountStep, ScoreStep, UpdateStep;
    MovedKeeps(st, t, st'.txs[t], st');
  }

  lemma ServiceStep(max: nat, st: State, t: nat, a: Action, st': State)
    requires LocksInv(st) && TxsInv(st) && DbInv(max, st.db) && Step(max, st, t, a) == Some(st')
    requires a.ClaimNow? || a.CompleteNow? || a.ReclaimNow? || a.MarkNow? || a.CreateNow?
    ensures LocksInv(st') && TxsInv(st') && DbInv(max, st'.db) && Evolves(st.db, st'.db)
    ensures st'.db == Apply(max, st.db, OpOf(st, t, a)) && st'.settled == st.settled
  {
    hide DbInv, LocksInv, TxsInv, Evolves, ClaimTx, CompleteTx, Leases.ReclaimRow, ClaimFits, Dispatch.MarkTx;
    hide MatchCreation.CreateTx;
    match a {
      case ClaimNow(s, token, lease) =>
        ClaimFrame(max, st, s, token, lease);
        ClaimKeeps(max, st.db, s, token, lease, st.clock);
      case CompleteNow(c, result) =>
        CompleteFrame(max, st, c, result);
        CompleteKeeps(max, st.db, c, result, st.clock);
      case ReclaimNow(s) =>
        ReclaimFrame(max, st, s);
        Leases.ReclaimRowKeeps(max, st.db, s, st.clock);
      case MarkNow(s) =>
        MarkFrame(st, s);
        Dispatch.MarkKeeps(max, st.db, s, st.clock);
      case CreateNow(a, b, duration, newId) =>
        CreateFrame(st, a, b, duration, newId);
        MatchCreation.CreateKeeps(max, st.db, a, b, duration, st.clock, newId);
    }
  }

  lemma PlainStep(max: nat, st: State, t: nat, a: Action, st': State)
    requires LocksInv(st) && TxsInv(st) && Step(max, st, t, a) == Some(st')
    requires a.Tick? || a.Begin? || a.Rollback?
    ensures LocksInv(st') && TxsInv(st') && st'.db == st.db && st'.settled == st.settled
  {
    hide LocksInv, TxsInv, Moved, TxFits;
    if a.Tick? {
      TickKeeps(st, st');
    } else {
      PlainMoves(max, st, t, a, st');
      MovedKeeps(st, t, st'.txs[t], st');
    }
  }

  lemma TickKeeps(st: State, st': State)
    requires LocksInv(st) && TxsInv(st) && st' == st.(clock := st'.clock)
    ensures LocksInv(st') && TxsInv(st')
  {
    hide KeysHeld, RowsHeld, IdsDrawn, TxFits;
  }

  lemma PlainMoves(max: nat, st: State, t: nat, a: Action, st': State)
    requires Step(max, st, t, a) == Some(st') && (a.Begin? || a.Rollback?)
    ensures t in st'.txs && Moved(st, t, st'.txs[t], st') && TxFits(st.db, st'.txs[t])
    ensures st'.db == st.db && st'.settled == st.settled
  {
    hide FindStep, LockMatchStep, InsertStep, CountStep, ScoreStep, UpdateStep, CommitStep, SelectStep, SampleStep;
    hide TakeKeyStep, DbInv;
  }

  lemma TimesKept(max: nat, st: State, t: nat, a: Action, st': State)
    requires TimesInv(st) && Step(max, st, t, a) == Some(st')
    ensures TimesInv(st')
  {
    hide AcceptTx, ClaimTx, CompleteTx, Leases.ReclaimRow, ApplyStaged, Gate, FindRequest, ClaimFits, Dispatch.MarkTx;
    hide MatchCreation.CreateTx;
    hide MatchEnd.DueKeys, MatchEnd.OpenSubs, MatchEnd.PlayersUsable, MatchEnd.BestScores, MatchEnd.DecideTiebreak;
  }

  ghost predicate SettledInv(st: State) {
    forall m | m in st.settled :: SettledFinal(st.db, m)
  }

  lemma SettledGrows(st: State, st': State, fresh': set<Uuid>)
    requires SettledInv(st) && Evolves(st.db, st'.db) && st'.settled == st.settled + fresh'
    requires forall m | m in fresh' :: SettledFinal(st'.db, m)
    ensures SettledInv(st')
  {
    forall m | m in st.settled ensures SettledFinal(st'.db, m) { SettledLater(st.db, st'.db, m); }
    hide SettledFinal, Evolves;
  }

  lemma CommitRefines(max: nat, st: State, t: nat, st': State)
    requires 0 < max && DbInv(max, st.db) && LocksInv(st) && TxsInv(st) && SettledInv(st)
    requires CommitStep(st, t) == Some(st')
    ensures LocksInv(st') && TxsInv(st') && SettledInv(st') && DbInv(max, st'.db) && Evolves(st.db, st'.db)
    ensures st'.db == Apply(max, st.db, OpOf(st, t, Commit))
  {
    hide DbInv, LocksInv, TxsInv, SettledFinal, SettledInv, Evolves, AcceptTx, MatchEnd.FinalizeAll, ApplyStaged;
    if st.txs[t].Inserted? {
      AcceptCommit(max, st, t, st');
      SettledGrows(st, st', {});
    } else {
      SettleCommit(max, st, t, st');
      SettledGrows(st, st', Elements(MatchesOf(st.txs[t].staged)));
    }
  }

  lemma OtherRefines(max: nat, st: State, t: nat, a: Action, st': State)
    requires DbInv(max, st.db) && LocksInv(st) && TxsInv(st) && Step(max, st, t, a) == Some(st') && !a.Commit?
    ensures LocksInv(st') && TxsInv(st') && DbInv(max, st'.db) && Evolves(st.db, st'.db) && st'.settled == st.settled
    ensures st'.db == Apply(max, st.db, OpOf(st, t, a))
  {
    hide DbInv, LocksInv, TxsInv, Evolves, Step;
    EvolvesReflexive(st.db);
    if a.ClaimNow? || a.CompleteNow? || a.ReclaimNow? || a.MarkNow? || a.CreateNow? {
      ServiceStep(max, st, t, a, st');
    } else if a.Tick? || a.Begin? || a.Rollback? {
      PlainStep(max, st, t, a, st');
    } else {
      QuietStep(max, st, t, a, st');
    }
  }

  /** Every step keeps the invariant and changes the tables exactly as the atomic
      transaction named by `OpOf` does at that moment. */
  lemma StepRefines(max: nat, st: State, t: nat, a: Action, st': State)
    requires FineInv(max, st) && Step(max, st, t, a) == Some(st')
    ensures FineInv(max, st') && Evolves(st.db, st'.db)
    ensures st'.db == Apply(max, st.db, OpOf(st, t, a))
  {
    hide DbInv, LocksInv, TxsInv, TimesInv, SettledFinal, Evolves;
    EvolvesReflexive(st.db);
    TimesKept(max, st, t, a, st');
    if a.Commit? {
      CommitRefines(max, st, t, st');
    } else {
      hide Step, Apply, OpOf;
      OtherRefines(max, st, t, a, st');
      SettledGrows(st, st', {});
    }
  }

  /** When the answering transaction read the clock; its answer does not depend on
      time where it has not. */
  function AnswerTime(st: State, t: nat): nat {
    if t in st.txs && HasTime(st.txs[t]) then st.txs[t].now else st.clock
  }

  lemma TxFitsAt(st: State, t: nat)
    requires TxsInv(st) && TimesInv(st) && t in st.txs
    ensures TxFits(st.db, st.txs[t]) && (HasTime(st.txs[t]) ==> st.txs[t].now <= st.clock)
  {
    hide TxFits;
  }

  /** An answer given before anything is inserted. */
  lemma AnswersBefore(max: nat, st: State, t: nat, a: Action, st': State)
    requires Step(max, st, t, a) == Some(st') && !a.Begin? && !a.Commit?
    requires t in st.txs && TxFits(st.db, st.txs[t]) && !st.txs[t].Answered? && t in st'.txs && st'.txs[t].Answered?
    ensures st.txs[t].Begun? || HoldsKey(st.txs[t])
    ensures a.LockMatch? ==> HasTime(st.txs[t])
    ensures AcceptTx(st.db, st.txs[t].r, AnswerTime(st, t), NIL) == (st'.db, st'.txs[t].result)
  {
    hide SettlerFits, ClaimTx, CompleteTx, Leases.ReclaimRow, Dispatch.MarkTx, MatchCreation.CreateTx, Gate;
    hide MatchEnd.DueKeys, MatchEnd.OpenSubs, MatchEnd.PlayersUsable, MatchEnd.BestScores, MatchEnd.DecideTiebreak;
    assert a.Find? || a.LockMatch?;
  }

  /** An answer is the answer the atomic `Accept` gives at the step that answers, at
      the time this transaction sampled, which has passed. */
  lemma AnswersAtomically(max: nat, st: State, t: nat, a: Action, st': State)
    requires FineInv(max, st) && Step(max, st, t, a) == Some(st')
    requires t in st'.txs && st'.txs[t].Answered? && !(t in st.txs && st.txs[t].Answered?)
    ensures if a.Begin? then t !in st.txs else t in st.txs && (st.txs[t].Begun? || HoldsKey(st.txs[t]))
    ensures a.LockMatch? || a.Commit? ==> HasTime(st.txs[t])
    ensures AnswerTime(st, t) <= st.clock
    ensures AcceptTx(st.db, if a.Begin? then a.r else st.txs[t].r, AnswerTime(st, t),
                     if a.Commit? then st.txs[t].id else NIL)
            == (st'.db, st'.txs[t].result)
  {
    hide DbInv, LocksInv, TxsInv, TimesInv, TxFits, SettledFinal, SettlerFits, ApplyStaged, ClaimTx, CompleteTx,
      Leases.ReclaimRow;
    hide Dispatch.MarkTx, MatchCreation.CreateTx;
    if !a.Begin? {
      TxFitsAt(st, t);
      if a.Commit? {
        AcceptCommit(max, st, t, st');
      } else {
        AnswersBefore(max, st, t, a, st');
      }
    }
  }

  // --------------------------------------------------------------------- whole runs

  /** The atomic transactions of a run, in commit order. */
  ghost function Trace(max: nat, st: State, acts: seq<(nat, Action)>): seq<Op>
    decreases |acts|
  {
    if acts == [] then []
    else match Step(max, st, acts[0].0, acts[0].1)
      case None => []
      case Some(next) => [OpOf(st, acts[0].0, acts[0].1)] + Trace(max, next, acts[1..])
  }

  ghost function ApplyAll(max: nat, db: Db, ops: seq<Op>): Db
    decreases |ops|
  {
    if ops == [] then db else ApplyAll(max, Apply(max, db, ops[0]), ops[1..])
  }

  /** Every interleaving of statements is equivalent to running whole transactions
      one after the other in commit order. */
  lemma {:induction false} RunRefines(max: nat, st: State, acts: seq<(nat, Action)>)
    requires FineInv(max, st) && Run(max, st, acts).Some?
    ensures var end := Run(max, st, acts).value;
      && FineInv(max, end) && Evolves(st.db, end.db)
      && end.db == ApplyAll(max, st.db, Trace(max, st, acts))
    decreases |acts|
  {
    hide FineInv, Evolves, Apply, OpOf, Step;
    if acts == [] {
      EvolvesReflexive(st.db);
    } else {
      var next := Step(max, st, acts[0].0, acts[0].1).value;
      StepRefines(max, st, acts[0].0, acts[0].1, next);
      RunRefines(max, next, acts[1..]);
      EvolvesTransitive(st.db, next.db, Run(max, st, acts).value.db);
      assert Trace(max, st, acts)[1..] == Trace(max, next, acts[1..]);
    }
  }

  lemma InitFine(max: nat, st: State)
    requires Init(max, st)
    ensures FineInv(max, st)
  {
  }

  /** A match settled by the reaper stays as decided: its submissions are all
      completed, none is ever added, and the stored winner is exactly the player
      whose final best score is ahead, whatever runs before or after. */
  lemma SettlementIsFinal(max: nat, st: State, first: seq<(nat, Action)>, more: seq<(nat, Action)>, m: Uuid)
    requires Init(max, st) && Run(max, st, first).Some?
    requires m in Run(max, st, first).value.settled && Run(max, Run(max, st, first).value, more).Some?
    ensures var mid := Run(max, st, first).value;
      var end := Run(max, mid, more).value;
      && SettledFinal(mid.db, m) && SettledFinal(end.db, m)
      && SubsOf(end.db, m) == SubsOf(mid.db, m) && end.db.matches[m] == mid.db.matches[m]
      && forall p :: Best(end.db, m, p) == Best(mid.db, m, p)
  {
    var mid := Run(max, st, first).value;
    InitFine(max, st);
    RunRefines(max, st, first);
    RunRefines(max, mid, more);
    SettledLater(mid.db, Run(max, mid, more).value.db, m);
  }

  // ----------------------------------------------------------------- settled when due

  predicate Settles(tx: Tx) {
    tx.Selected? || tx.Counted? || tx.Scored?
  }

  ghost predicate PastDeadline(st: State, m: Uuid) {
    m in st.db.matches && st.db.matches[m].deadline <= st.clock
  }

  /** The deadlines of the matches being settled, and of those settled, have come. */
  ghost predicate DueInv(st: State) {
    && (forall t, m | t in st.txs && Settles(st.txs[t]) && m in st.txs[t].held :: PastDeadline(st, m))
    && (forall m | m in st.settled :: PastDeadline(st, m))
  }

  /** A step leaves the other transactions alone; a settling one keeps its matches,
      which it selects past their deadlines, and settles only those. */
  lemma HeldStays(max: nat, st: State, t: nat, a: Action, st': State)
    requires Step(max, st, t, a) == Some(st')
    ensures forall u | u != t && u in st'.txs :: u in st.txs && st'.txs[u] == st.txs[u]
    ensures t in st'.txs && Settles(st'.txs[t]) ==>
      forall m | m in st'.txs[t].held ::
        PastDeadline(st, m) || (t in st.txs && Settles(st.txs[t]) && m in st.txs[t].held)
  {
    hide AcceptTx, ClaimTx, CompleteTx, Leases.ReclaimRow, ApplyStaged, Gate, FindRequest, ClaimFits, Dispatch.MarkTx;
    hide MatchCreation.CreateTx, NewRow;
    hide MatchEnd.OpenSubs, MatchEnd.PlayersUsable, MatchEnd.BestScores, MatchEnd.DecideTiebreak;
  }

  lemma SettledWasHeld(max: nat, st: State, t: nat, a: Action, st': State, m: Uuid)
    requires TxsInv(st) && Step(max, st, t, a) == Some(st') && m in st'.settled && m !in st.settled
    ensures t in st.txs && Settles(st.txs[t]) && m in st.txs[t].held
  {
    hide AcceptTx, ClaimTx, CompleteTx, Leases.ReclaimRow, ApplyStaged, Gate, FindRequest, ClaimFits, Dispatch.MarkTx;
    hide MatchCreation.CreateTx, NewRow;
    hide MatchEnd.DueKeys, MatchEnd.OpenSubs, MatchEnd.PlayersUsable, MatchEnd.BestScores, MatchEnd.DecideTiebreak;
    assert TxFits(st.db, st.txs[t]) && SettlerFits(st.db, st.txs[t]);
  }

  lemma ClockGrows(max: nat, st: State, t: nat, a: Action, st': State)
    requires Step(max, st, t, a) == Some(st')
    ensures st.clock <= st'.clock
  {
    hide AcceptTx, ClaimTx, CompleteTx, Leases.ReclaimRow, ApplyStaged, Gate, FindRequest, ClaimFits, Dispatch.MarkTx;
    hide MatchCreation.CreateTx, NewRow;
    hide MatchEnd.DueKeys, MatchEnd.OpenSubs, MatchEnd.PlayersUsable, MatchEnd.BestScores, MatchEnd.DecideTiebreak;
  }

  lemma DueLater(st: State, st': State, m: Uuid)
    requires PastDeadline(st, m) && Evolves(st.db, st'.db) && st.clock <= st'.clock
    ensures PastDeadline(st', m)
  {
  }

  lemma DueKept(max: nat, st: State, t: nat, a: Action, st': State)
    requires FineInv(max, st) && DueInv(st) && Step(max, st, t, a) == Some(st')
    ensures DueInv(st')
  {
    hide DbInv, LocksInv, TxsInv, TimesInv, SettledFinal, Evolves, Step, Apply, OpOf, PastDeadline;
    StepRefines(max, st, t, a, st');
    ClockGrows(max, st, t, a, st');
    HeldStays(max, st, t, a, st');
    forall m | PastDeadline(st, m) ensures PastDeadline(st', m) { DueLater(st, st', m); }
    forall m | m in st'.settled ensures PastDeadline(st', m) {
      if m !in st.settled { SettledWasHeld(max, st, t, a, st', m); }
    }
  }

  lemma {:induction false} DueRun(max: nat, st: State, acts: seq<(nat, Action)>)
    requires FineInv(max, st) && DueInv(st) && Run(max, st, acts).Some?
    ensures DueInv(Run(max, st, acts).value)
    decreases |acts|
  {
    hide FineInv, DueInv, Step, Evolves, Apply, OpOf;
    if acts != [] {
      var next := Step(max, st, acts[0].0, acts[0].1).value;
      StepRefines(max, st, acts[0].0, acts[0].1, next);
      DueKept(max, st, acts[0].0, acts[0].1, next);
      DueRun(max, next, acts[1..]);
    }
  }

  /** The reaper finishes no match before its deadline, whatever statements interleave. */
  lemma SettledWhenDue(max: nat, st: State, acts: seq<(nat, Action)>, m: Uuid)
    requires Init(max, st) && Run(max, st, acts).Some? && m in Run(max, st, acts).value.settled
    ensures var end := Run(max, st, acts).value; m in end.db.matches && end.db.matches[m].deadline <= end.clock
  {
    hide FineInv, Run;
    InitFine(max, st);
    DueRun(max, st, acts);
  }
}
