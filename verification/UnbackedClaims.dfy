// Why an acquiring claim has to be backed by a safe entry, exactly: without one, some
// continuation in which every further claim is harmless ends with a result that
// nobody was told and that no entry stands for.
module UnbackedClaims {
  import opened Base
  import opened Rows
  import opened JudgeStore
  import opened JudgeResult
  import opened Stream
  import opened Protocol
  import opened ProtocolSafety
  import opened ProtocolTheorems
  import opened ProtocolPublication
  import opened Hands
  import Recovery

  /** Worker `w` runs the submission under a live lease, and no entry of it is safe. */
  ghost predicate Exposed(st: State, w: nat, s: Uuid) {
    && w in st.workers && st.workers[w].Executing? && st.workers[w].claimed.sub == s
    && RunningSub(st.db, s) && Owns(st.db.subs[s], st.workers[w].claimed)
    && st.db.subs[s].lease.Some? && st.clock < st.db.subs[s].lease.value
    && !Backed(st, s)
  }

  ghost predicate Sound(cfg: Config, st: State) {
    ValidConfig(cfg) && SafetyInv(cfg, st) && HandsInv(st)
  }

  lemma Pieces(cfg: Config, st: State)
    requires Sound(cfg, st)
    ensures DbInv(cfg.maxAttempts, st.db) && JobsInv(st) && PcsInv(st) && ResultsInv(st) && StreamOk(st.stream)
  {
    hide SafetyInv, DbInv, JobsInv, PcsInv, ResultsInv, MarksInv, AcceptedInv, HandsInv, StreamOk;
    SafetyParts(cfg, st);
  }

  lemma ExposedShape(st: State, w: nat, s: Uuid)
    requires Exposed(st, w, s)
    ensures w in st.workers && st.workers[w].Executing? && RunningSub(st.db, s) && !Backed(st, s)
  {
    hide Owns, Backed;
  }

  lemma HandsFit(cfg: Config, st: State)
    requires Sound(cfg, st)
    ensures forall v | v in st.workers && st.workers[v].Received? :: WorkerFits(st, st.workers[v])
    ensures forall r | r in st.reapers :: ReaperFits(st, st.reapers[r])
  {
    Pieces(cfg, st);
    hide DbInv, JobsInv, ResultsInv, StreamOk, Sound;
  }

  /** A stretch of the run whose claims acquire nothing unbacked, during which the
      tables, the clock and everything published stay as they are. */
  ghost predicate Quietly(cfg: Config, st: State, acts: seq<Action>, st': State) {
    && Run(cfg, st, acts) == Some(st') && BackedRun(cfg, st, acts)
    && st'.db == st.db && st'.clock == st.clock && st'.returned == st.returned && st'.events == st.events
  }

  lemma QuietlyJoin(cfg: Config, st: State, a: seq<Action>, mid: State, b: seq<Action>, end: State)
    requires Quietly(cfg, st, a, mid) && Quietly(cfg, mid, b, end)
    ensures Quietly(cfg, st, a + b, end)
  {
    hide Run, BackedRun;
    Recovery.RunAppend(cfg, st, a, b);
    BackedJoin(cfg, st, a, b);
  }

  lemma QuietStep(cfg: Config, st: State, a: Action, st': State)
    requires Step(cfg, st, a) == Some(st') && BackedStep(cfg, st, a)
    requires st'.db == st.db && st'.clock == st.clock && st'.returned == st.returned && st'.events == st.events
    ensures Quietly(cfg, st, [a], st')
  {
    assert [a][1..] == [] && [a][0] == a;
    hide Step, BackedStep;
    assert Run(cfg, st', []) == Some(st') && BackedRun(cfg, st', []);
    assert Run(cfg, st, [a]) == Run(cfg, st', [a][1..]);
  }

  lemma QuietlyKeeps(cfg: Config, st: State, acts: seq<Action>, st': State)
    requires Sound(cfg, st) && Quietly(cfg, st, acts, st')
    ensures Sound(cfg, st')
  {
    hide SafetyInv, HandsInv, Run, BackedRun;
    RunKeeps(cfg, st, acts);
    RunHands(cfg, st, acts);
  }

  // -------------------------------------------------------------- dropping one entry

  /** Entry `e` is gone, and whoever had another entry in hand still has it. */
  ghost predicate Gone(st: State, st': State, e: nat) {
    && e !in st'.stream.entries && st'.stream.pel == st.stream.pel - {e}
    && (forall x | x in st.jobs :: x in st'.jobs && st'.jobs[x] == st.jobs[x])
    && (forall v | v in st.workers && !st.workers[v].Idle? && st.workers[v].entry != e ::
          v in st'.workers && st'.workers[v] == st.workers[v])
    && (forall r | r in st.reapers && !st.reapers[r].Free? && st.reapers[r].entry != e ::
          r in st'.reapers && st'.reapers[r] == st.reapers[r])
  }

  function Replacers(st: State, s: Uuid): set<nat> {
    set r | r in st.reapers && st.reapers[r].Replacing? && st.reapers[r].sub == s
  }

  lemma GoneStaysExposed(st: State, st': State, w: nat, s: Uuid, e: nat)
    requires Exposed(st, w, s) && JobsInv(st) && Gone(st, st', e)
    requires w in st'.workers && st'.workers[w] == st.workers[w] && st'.db == st.db && st'.clock == st.clock
    ensures Exposed(st', w, s)
  {
    hide JobsInv, Owns, Gone, Safe;
    if Backed(st', s) {
      var x :| Safe(st', s, x);
      SafeBefore(st, st', s, x, e);
    }
  }

  /** Dropping one entry makes no other one safe. */
  lemma SafeBefore(st: State, st': State, s: Uuid, x: nat, e: nat)
    requires JobsInv(st) && Gone(st, st', e) && Safe(st', s, x)
    ensures Safe(st, s, x)
  {
    PendingAreEntries(st);
    hide JobsInv;
  }

  lemma PendingAreEntries(st: State)
    requires JobsInv(st)
    ensures forall x | x in st.stream.pel :: x in st.stream.entries && x in st.jobs
  {
  }

  lemma AckDrops(cfg: Config, st: State, v: nat, e: nat)
    requires v in st.workers && st.workers[v] == Discarding(e) && e in st.stream.pel
    ensures AckStep(st, v).Some? && Gone(st, AckStep(st, v).value, e)
    ensures Quietly(cfg, st, [Work(v, Ack)], AckStep(st, v).value)
    ensures AckStep(st, v).value.stream.undelivered == st.stream.undelivered
    ensures AckStep(st, v).value.reapers == st.reapers && AckStep(st, v).value.workers == st.workers[v := Idle]
  {
    var st' := AckStep(st, v).value;
    assert Step(cfg, st, Work(v, Ack)) == Some(st');
    assert BackedStep(cfg, st, Work(v, Ack));
    hide Step, Quietly, BackedStep;
    QuietStep(cfg, st, Work(v, Ack), st');
  }

  lemma RemoveDrops(cfg: Config, st: State, r: nat, e: nat)
    requires r in st.reapers && st.reapers[r] == Removing(e) && e in st.stream.pel
    ensures RemoveStep(st, r).Some? && Gone(st, RemoveStep(st, r).value, e)
    ensures Quietly(cfg, st, [Reap(r, Remove)], RemoveStep(st, r).value)
    ensures RemoveStep(st, r).value.stream.undelivered == st.stream.undelivered
    ensures RemoveStep(st, r).value.reapers == st.reapers[r := Free] && RemoveStep(st, r).value.workers == st.workers
  {
    var st' := RemoveStep(st, r).value;
    assert Step(cfg, st, Reap(r, Remove)) == Some(st');
    assert BackedStep(cfg, st, Reap(r, Remove));
    hide Step, Quietly, BackedStep;
    QuietStep(cfg, st, Reap(r, Remove), st');
  }

  /** After a mark, which a running submission does not take, the removal follows. */
  lemma RemarkDrops(cfg: Config, st: State, r: nat, e: nat, s: Uuid) returns (acts: seq<Action>, st': State)
    requires r in st.reapers && st.reapers[r] == Remarking(e, s) && e in st.stream.pel && RunningSub(st.db, s)
    ensures Gone(st, st', e) && Quietly(cfg, st, acts, st')
    ensures st'.stream.undelivered == st.stream.undelivered
    ensures st'.reapers == st.reapers[r := Free] && st'.workers == st.workers
  {
    var mid := GoReaper(st, r, Removing(e));
    var remark := Reap(r, Remark);
    assert Step(cfg, st, remark) == Some(mid) && BackedStep(cfg, st, remark);
    QuietStep(cfg, st, remark, mid);
    hide Step, Quietly, BackedStep, RemoveStep;
    RemoveDrops(cfg, mid, r, e);
    st' := RemoveStep(mid, r).value;
    QuietlyJoin(cfg, st, [remark], mid, [Reap(r, Remove)], st');
    acts := [remark] + [Reap(r, Remove)];
    assert st.reapers[r := Removing(e)][r := Free] == st.reapers[r := Free];
  }

  /** A reaper that was going to replace the entry adds one to the queue. */
  lemma ReplaceDrops(cfg: Config, st: State, r: nat, e: nat, s: Uuid) returns (acts: seq<Action>, st': State)
    requires r in st.reapers && st.reapers[r] == Replacing(e, s) && e in st.stream.pel && RunningSub(st.db, s)
    requires JobsInv(st)
    ensures Gone(st, st', e) && Quietly(cfg, st, acts, st')
    ensures st'.reapers == st.reapers[r := Free] && st'.workers == st.workers
  {
    hide Quietly, JobsInv, Gone, RunningSub;
    var mid := GoReaper(AddJob(st, s), r, Remarking(e, s));
    var add := Reap(r, Replace);
    ReplaceIsQuiet(cfg, st, r, e, s);
    NextIsNew(st);
    var rest;
    rest, st' := RemarkDrops(cfg, mid, r, e, s);
    QuietlyJoin(cfg, st, [add], mid, rest, st');
    acts := [add] + rest;
    assert st.reapers[r := Remarking(e, s)][r := Free] == st.reapers[r := Free];
    GoneAfterAdd(st, mid, st', r, e, s);
  }

  lemma NextIsNew(st: State)
    requires JobsInv(st)
    ensures st.stream.next !in st.jobs
  {
  }

  lemma ReplaceIsQuiet(cfg: Config, st: State, r: nat, e: nat, s: Uuid)
    requires r in st.reapers && st.reapers[r] == Replacing(e, s)
    ensures Quietly(cfg, st, [Reap(r, Replace)], GoReaper(AddJob(st, s), r, Remarking(e, s)))
  {
    var mid := GoReaper(AddJob(st, s), r, Remarking(e, s));
    var add := Reap(r, Replace);
    assert Step(cfg, st, add) == Some(mid) && BackedStep(cfg, st, add);
    hide Step, BackedStep, Quietly;
    QuietStep(cfg, st, add, mid);
  }

  lemma GoneAfterAdd(st: State, mid: State, st': State, r: nat, e: nat, s: Uuid)
    requires r in st.reapers && st.reapers[r] == Replacing(e, s) && st.stream.next !in st.jobs
    requires mid == GoReaper(AddJob(st, s), r, Remarking(e, s)) && Gone(mid, st', e)
    ensures Gone(st, st', e)
  {
  }

  /** A worker that still has to claim finds the submission running and drops its entry. */
  lemma ClaimDrops(cfg: Config, st: State, v: nat, e: nat, w: nat, s: Uuid) returns (acts: seq<Action>, st': State)
    requires Sound(cfg, st) && Exposed(st, w, s)
    requires v in st.workers && st.workers[v] == Received(e, JobFor(s)) && e in st.stream.pel
    ensures Gone(st, st', e) && Quietly(cfg, st, acts, st')
    ensures st'.stream.undelivered == st.stream.undelivered
    ensures st'.reapers == st.reapers && st'.workers == st.workers[v := Idle]
  {
    hide Sound, Exposed, Step, Quietly, BackedStep, AckStep, ClaimStep, Gone, RunningSub;
    var token := Recovery.UnusedNat(st.tokens);
    var claim := Work(v, Claim(token));
    var mid := GoWorker(st, v, Discarding(e)).(tokens := st.tokens + {token});
    ClaimIsRefused(cfg, st, v, e, w, s, token);
    QuietStep(cfg, st, claim, mid);
    AckDrops(cfg, mid, v, e);
    st' := AckStep(mid, v).value;
    QuietlyJoin(cfg, st, [claim], mid, [Work(v, Ack)], st');
    acts := [claim] + [Work(v, Ack)];
    GoneAfterClaim(st, mid, st', v, e);
  }

  lemma GoneAfterClaim(st: State, mid: State, st': State, v: nat, e: nat)
    requires v in st.workers && !st.workers[v].Idle? && st.workers[v].entry == e && Gone(mid, st', e)
    requires mid == GoWorker(st, v, Discarding(e)).(tokens := mid.tokens)
    ensures Gone(st, st', e)
  {
  }

  lemma ClaimIsRefused(cfg: Config, st: State, v: nat, e: nat, w: nat, s: Uuid, token: Uuid)
    requires Sound(cfg, st) && Exposed(st, w, s) && token != NIL && token !in st.tokens
    requires v in st.workers && st.workers[v] == Received(e, JobFor(s))
    ensures var mid := GoWorker(st, v, Discarding(e)).(tokens := st.tokens + {token});
      Step(cfg, st, Work(v, Claim(token))) == Some(mid) && BackedStep(cfg, st, Work(v, Claim(token)))
  {
    hide Sound, Exposed, JobsInv, PcsInv, ResultsInv, StreamOk, DbInv, ClaimTx, Backed, RunningSub;
    Pieces(cfg, st);
    LiveClaim(cfg, st, w, s, token);
  }

  lemma LiveClaim(cfg: Config, st: State, w: nat, s: Uuid, token: Uuid)
    requires Sound(cfg, st) && Exposed(st, w, s) && token != NIL
    ensures RunningSub(st.db, s) && st.db.subs[s].lease.Some?
    ensures ClaimTx(st.db, s, token, cfg.attemptLease, st.clock) == (st.db, LiveAttempt(st.db.subs[s].lease.value))
  {
    Pieces(cfg, st);
    RunningClaims(cfg.maxAttempts, st.db, s, token, cfg.attemptLease, st.clock);
    ClaimMeaning(cfg.maxAttempts, st.db, s, token, cfg.attemptLease, st.clock);
    hide ClaimTx;
  }

  // ---------------------------------------------------------------- dropping all of them

  /** The pending entries of the submission. */
  function Pending(st: State, s: Uuid): set<nat> {
    set e | e in st.stream.pel && e in st.jobs && st.jobs[e] == JobFor(s)
  }

  /** The continuation after a drop, and how much less there is to do. */
  ghost predicate Progress(cfg: Config, st: State, st': State, w: nat, s: Uuid) {
    && Sound(cfg, st') && Exposed(st', w, s)
    && (|| Replacers(st', s) < Replacers(st, s)
        || (Replacers(st', s) <= Replacers(st, s)
            && (|st'.stream.undelivered| < |st.stream.undelivered|
                || (|st'.stream.undelivered| == |st.stream.undelivered| && Pending(st', s) < Pending(st, s)))))
  }

  lemma GoneShrinks(st: State, st': State, s: Uuid, e: nat)
    requires JobsInv(st) && Gone(st, st', e) && e in Pending(st, s)
    ensures Pending(st', s) < Pending(st, s)
  {
    PendingAreEntries(st);
    hide JobsInv;
    assert Pending(st', s) <= Pending(st, s) && e !in Pending(st', s);
  }

  lemma DropProgress(cfg: Config, st: State, acts: seq<Action>, st': State, w: nat, s: Uuid, e: nat)
    requires Sound(cfg, st) && Exposed(st, w, s) && e in Pending(st, s)
    requires Quietly(cfg, st, acts, st') && Gone(st, st', e) && w in st'.workers && st'.workers[w] == st.workers[w]
    requires || Replacers(st', s) < Replacers(st, s)
             || (Replacers(st', s) <= Replacers(st, s) && st'.stream.undelivered == st.stream.undelivered)
    ensures Progress(cfg, st, st', w, s)
  {
    Pieces(cfg, st);
    QuietlyKeeps(cfg, st, acts, st');
    assert st.workers[w].Executing?;
    assert st'.db == st.db && st'.clock == st.clock;
    hide Sound, JobsInv, PcsInv, ResultsInv, StreamOk, DbInv, Gone, Quietly, Pending, Replacers;
    GoneStaysExposed(st, st', w, s, e);
    GoneShrinks(st, st', s, e);
    hide Exposed;
  }

  lemma DropByAck(cfg: Config, st: State, w: nat, s: Uuid, e: nat, v: nat) returns (acts: seq<Action>, st': State)
    requires Sound(cfg, st) && Exposed(st, w, s) && e in Pending(st, s)
    requires v in st.workers && st.workers[v] == Discarding(e)
    ensures Quietly(cfg, st, acts, st') && Progress(cfg, st, st', w, s)
  {
    hide Sound, Exposed, Quietly, Gone, Progress, AckStep, Backed, RunningSub;
    ExposedShape(st, w, s);
    AckDrops(cfg, st, v, e);
    acts, st' := [Work(v, Ack)], AckStep(st, v).value;
    DropProgress(cfg, st, acts, st', w, s, e);
  }

  lemma DropByClaim(cfg: Config, st: State, w: nat, s: Uuid, e: nat, v: nat) returns (acts: seq<Action>, st': State)
    requires Sound(cfg, st) && Exposed(st, w, s) && e in Pending(st, s)
    requires v in st.workers && st.workers[v].Received? && st.workers[v].entry == e
    ensures Quietly(cfg, st, acts, st') && Progress(cfg, st, st', w, s)
  {
    hide Sound, Exposed, Quietly, Gone, Progress, Backed, RunningSub;
    ExposedShape(st, w, s);
    HandsFit(cfg, st);
    acts, st' := ClaimDrops(cfg, st, v, e, w, s);
    DropProgress(cfg, st, acts, st', w, s, e);
  }

  lemma DropByReplace(cfg: Config, st: State, w: nat, s: Uuid, e: nat, r: nat) returns (acts: seq<Action>, st': State)
    requires Sound(cfg, st) && Exposed(st, w, s) && e in Pending(st, s)
    requires r in st.reapers && st.reapers[r].Replacing? && st.reapers[r].entry == e
    ensures Quietly(cfg, st, acts, st') && Progress(cfg, st, st', w, s)
  {
    hide Sound, Exposed, Quietly, Gone, Progress, DbInv, JobsInv, PcsInv, ResultsInv, StreamOk, RunningSub, Backed;
    ExposedShape(st, w, s);
    Pieces(cfg, st);
    HandsFit(cfg, st);
    acts, st' := ReplaceDrops(cfg, st, r, e, s);
    assert r in Replacers(st, s) && r !in Replacers(st', s);
    DropProgress(cfg, st, acts, st', w, s, e);
  }

  lemma DropByRemove(cfg: Config, st: State, w: nat, s: Uuid, e: nat, r: nat) returns (acts: seq<Action>, st': State)
    requires Sound(cfg, st) && Exposed(st, w, s) && e in Pending(st, s)
    requires r in st.reapers && st.reapers[r] == Removing(e)
    ensures Quietly(cfg, st, acts, st') && Progress(cfg, st, st', w, s)
  {
    hide Sound, Exposed, Quietly, Gone, Progress, RemoveStep, Backed, RunningSub;
    ExposedShape(st, w, s);
    RemoveDrops(cfg, st, r, e);
    acts, st' := [Reap(r, Remove)], RemoveStep(st, r).value;
    DropProgress(cfg, st, acts, st', w, s, e);
  }

  lemma DropByRemark(cfg: Config, st: State, w: nat, s: Uuid, e: nat, r: nat) returns (acts: seq<Action>, st': State)
    requires Sound(cfg, st) && Exposed(st, w, s) && e in Pending(st, s)
    requires r in st.reapers && st.reapers[r].Remarking? && st.reapers[r].entry == e
    ensures Quietly(cfg, st, acts, st') && Progress(cfg, st, st', w, s)
  {
    hide Sound, Exposed, Quietly, Gone, Progress, DbInv, JobsInv, PcsInv, ResultsInv, StreamOk, RunningSub, Backed;
    ExposedShape(st, w, s);
    Pieces(cfg, st);
    HandsFit(cfg, st);
    acts, st' := RemarkDrops(cfg, st, r, e, s);
    DropProgress(cfg, st, acts, st', w, s, e);
  }

  ghost predicate TakesBack(st: State, r: nat, e: nat) {
    && r in st.reapers && !st.reapers[r].Free? && st.reapers[r].entry == e
    && (st.reapers[r].Replacing? || st.reapers[r].Remarking? || st.reapers[r].Removing?)
  }

  ghost predicate LetsGo(st: State, v: nat, e: nat) {
    v in st.workers && (st.workers[v] == Discarding(e) || (st.workers[v].Received? && st.workers[v].entry == e))
  }

  /** Why a pending entry is not safe: someone is going to drop it. */
  lemma WhoDrops(st: State, s: Uuid, e: nat)
    requires JobsInv(st) && e in Pending(st, s) && !Backed(st, s)
    ensures (exists v :: LetsGo(st, v, e)) || (exists r :: TakesBack(st, r, e))
  {
    PendingAreEntries(st);
    assert !Safe(st, s, e);
    hide JobsInv;
    if v :| v in st.workers && st.workers[v] == Discarding(e) {
      assert LetsGo(st, v, e);
    } else if v :| v in st.workers && st.workers[v].Received? && st.workers[v].entry == e {
      assert LetsGo(st, v, e);
    } else if Doomed(st, e) {
      if r, u :| r in st.reapers && st.reapers[r] == Remarking(e, u) {
        assert TakesBack(st, r, e);
      } else if r :| r in st.reapers && st.reapers[r] == Removing(e) {
        assert TakesBack(st, r, e);
      }
    } else if r :| r in st.reapers && st.reapers[r].Replacing? && st.reapers[r].entry == e {
      assert TakesBack(st, r, e);
    }
  }

  lemma DropPending(cfg: Config, st: State, w: nat, s: Uuid, e: nat) returns (acts: seq<Action>, st': State)
    requires Sound(cfg, st) && Exposed(st, w, s) && e in Pending(st, s)
    ensures Quietly(cfg, st, acts, st') && Progress(cfg, st, st', w, s)
  {
    hide Sound, Exposed, DbInv, JobsInv, PcsInv, ResultsInv, StreamOk, Quietly, Progress, Pending, Backed, RunningSub;
    Pieces(cfg, st);
    ExposedShape(st, w, s);
    WhoDrops(st, s, e);
    if v :| LetsGo(st, v, e) {
      if st.workers[v].Received? {
        acts, st' := DropByClaim(cfg, st, w, s, e, v);
      } else {
        acts, st' := DropByAck(cfg, st, w, s, e, v);
      }
    } else {
      var r :| TakesBack(st, r, e);
      match st.reapers[r] {
        case Replacing(_, _) => acts, st' := DropByReplace(cfg, st, w, s, e, r);
        case Remarking(_, _) => acts, st' := DropByRemark(cfg, st, w, s, e, r);
        case Removing(_) => acts, st' := DropByRemove(cfg, st, w, s, e, r);
      }
    }
  }

  /** The front of the queue is read, by a worker that then does nothing. */
  lemma ReadOn(cfg: Config, st: State, w: nat, s: Uuid) returns (acts: seq<Action>, st': State)
    requires Sound(cfg, st) && Exposed(st, w, s) && st.stream.undelivered != []
    ensures Quietly(cfg, st, acts, st') && Progress(cfg, st, st', w, s)
  {
    hide Sound, Exposed, DbInv, JobsInv, PcsInv, ResultsInv, Quietly, StreamOk, Pending, ReadStep;
    Pieces(cfg, st);
    var v := Recovery.UnusedNat(st.workers.Keys);
    var read := Work(v, Read);
    Recovery.ReadLeadsOn(cfg, st, v);
    st' := ReadStep(st, v).value;
    acts := [read];
    ReadIsQuiet(cfg, st, v);
    QuietlyKeeps(cfg, st, acts, st');
    ReadStaysExposed(st, v, w, s);
    assert Replacers(st', s) == Replacers(st, s);
  }

  lemma ReadIsQuiet(cfg: Config, st: State, v: nat)
    requires ReadStep(st, v).Some?
    ensures Quietly(cfg, st, [Work(v, Read)], ReadStep(st, v).value)
    ensures ReadStep(st, v).value.reapers == st.reapers
  {
    assert BackedStep(cfg, st, Work(v, Read));
    assert Step(cfg, st, Work(v, Read)) == ReadStep(st, v);
    hide Step, Quietly, BackedStep;
    QuietStep(cfg, st, Work(v, Read), ReadStep(st, v).value);
  }

  lemma ReadStaysExposed(st: State, v: nat, w: nat, s: Uuid)
    requires Exposed(st, w, s) && v !in st.workers && ReadStep(st, v).Some? && StreamOk(st.stream)
    ensures Exposed(ReadStep(st, v).value, w, s) && ReadStep(st, v).value.workers[w] == st.workers[w]
  {
    var st' := ReadStep(st, v).value;
    if Backed(st', s) {
      var x :| Safe(st', s, x);
      SafeBeforeRead(st, v, s, x);
    }
    hide Owns, StreamOk, Backed;
  }

  lemma SafeBeforeRead(st: State, v: nat, s: Uuid, x: nat)
    requires v !in st.workers && ReadStep(st, v).Some? && Safe(ReadStep(st, v).value, s, x)
    ensures Safe(st, s, x)
  {
    var st' := ReadStep(st, v).value;
    assert st'.workers[v].Received? && st'.workers[v].entry == st.stream.undelivered[0];
    forall u | u in st.workers ensures u in st'.workers && st'.workers[u] == st.workers[u] {}
    assert x in st.stream.pel;
    if Doomed(st, x) {
      assert Doomed(st', x);
    }
  }

  ghost predicate Bare(st: State, s: Uuid) {
    forall e | e in st.stream.entries && e in st.jobs :: st.jobs[e] != JobFor(s)
  }

  /** Entry by entry, others drop everything that stands for the submission. */
  lemma {:induction false} DropAll(cfg: Config, st: State, w: nat, s: Uuid) returns (acts: seq<Action>, st': State)
    requires Sound(cfg, st) && Exposed(st, w, s)
    ensures Quietly(cfg, st, acts, st') && Sound(cfg, st') && Exposed(st', w, s) && Bare(st', s)
    decreases Replacers(st, s), |st.stream.undelivered|, Pending(st, s)
  {
    hide Sound, Exposed, Quietly, Pending, Replacers;
    if e :| e in Pending(st, s) {
      acts, st' := DropPending(cfg, st, w, s, e);
    } else if st.stream.undelivered != [] {
      acts, st' := ReadOn(cfg, st, w, s);
    } else {
      acts, st' := [], st;
      NothingQuietly(cfg, st);
      NothingLeft(cfg, st, s);
      return;
    }
    var rest, end := DropAll(cfg, st', w, s);
    QuietlyJoin(cfg, st, acts, st', rest, end);
    acts, st' := acts + rest, end;
  }

  lemma NothingQuietly(cfg: Config, st: State)
    ensures Quietly(cfg, st, [], st)
  {
  }

  lemma NothingLeft(cfg: Config, st: State, s: Uuid)
    requires Sound(cfg, st) && Pending(st, s) == {} && st.stream.undelivered == []
    ensures Bare(st, s)
  {
    Pieces(cfg, st);
    hide Sound, DbInv, JobsInv, PcsInv, ResultsInv;
    forall e | e in st.stream.entries && e in st.jobs ensures st.jobs[e] != JobFor(s) {
      assert e in st.stream.pel;
      assert e !in Pending(st, s);
    }
  }

  // ---------------------------------------------------------------------- the lost result

  /** The result is there, nobody was told, and nothing stands for it any more. */
  ghost predicate Silent(st: State, s: Uuid) {
    s in st.returned && (forall p :: !Told(st, s, p)) && !Covered(st, s)
  }

  lemma RunningIsUntold(st: State, s: Uuid)
    requires ResultsInv(st) && RunningSub(st.db, s)
    ensures forall p :: !Told(st, s, p)
  {
    hide ResultsInv, RunningSub, Told;
    forall p ensures !Told(st, s, p) {
      if Told(st, s, p) { ToldIsOver(st, s, p); }
    }
  }

  lemma ToldIsOver(st: State, s: Uuid, p: Uuid)
    requires ResultsInv(st) && Told(st, s, p)
    ensures !RunningSub(st.db, s)
  {
    var ev :| ev in st.events && ev.record.sub == s && ev.recipient == p;
    assert RecordFits(st.db, ev.record);
  }

  /** The worker completes the submission and dies. */
  lemma FinishSilently(cfg: Config, st: State, w: nat, s: Uuid) returns (acts: seq<Action>, end: State)
    requires Sound(cfg, st) && Exposed(st, w, s) && Bare(st, s)
    ensures Run(cfg, st, acts) == Some(end) && BackedRun(cfg, st, acts) && Silent(end, s)
  {
    hide Sound, Silent, Exposed, FinishStep, Bare, Step, BackedStep, Told, RunningSub, Backed;
    var result := Terminal(VTimeout, None, 0);
    var finish, crash := Work(w, Finish(result)), Work(w, Crash);
    acts := [finish] + [crash];
    UntoldYet(cfg, st, w, s);
    FinishApplies(cfg, st, w, s, result);
    var done := FinishStep(st, w, result).value;
    end := GoWorker(done, w, Idle);
    FinishAndCrash(cfg, st, w, result);
    NoClaims(cfg, st, acts);
    IsSilent(st, end, s);
  }

  lemma UntoldYet(cfg: Config, st: State, w: nat, s: Uuid)
    requires Sound(cfg, st) && Exposed(st, w, s)
    ensures forall p :: !Told(st, s, p)
  {
    hide Sound, Exposed, Told, RunningSub, ResultsInv, DbInv, JobsInv, PcsInv, StreamOk, Backed;
    Pieces(cfg, st);
    ExposedShape(st, w, s);
    RunningIsUntold(st, s);
  }

  lemma FinishAndCrash(cfg: Config, st: State, w: nat, result: Terminal)
    requires FinishStep(st, w, result).Some?
    ensures Run(cfg, st, [Work(w, Finish(result))] + [Work(w, Crash)])
        == Some(GoWorker(FinishStep(st, w, result).value, w, Idle))
  {
    hide FinishStep;
    var finish, crash := Work(w, Finish(result)), Work(w, Crash);
    var done := FinishStep(st, w, result).value;
    assert Step(cfg, st, finish) == Some(done) && Step(cfg, done, crash) == Some(GoWorker(done, w, Idle));
    hide Step;
    Recovery.RunCons(cfg, st, finish, [crash]);
    Recovery.RunCons(cfg, done, crash, []);
    assert [crash] == [crash] + [];
  }

  lemma FinishApplies(cfg: Config, st: State, w: nat, s: Uuid, result: Terminal)
    requires Sound(cfg, st) && Exposed(st, w, s) && result == Terminal(VTimeout, None, 0)
    ensures FinishStep(st, w, result).Some?
    ensures var done := FinishStep(st, w, result).value;
      s in done.returned && done.events == st.events && done.stream == st.stream && done.jobs == st.jobs
  {
    hide Sound, DbInv, JobsInv, PcsInv, ResultsInv, StreamOk, CompleteTx, Owns, Announceable, Backed, RunningSub;
    Pieces(cfg, st);
    ExecutingFits(st, w);
    hide ClaimFits;
    CompleteMeaning(cfg.maxAttempts, st.db, st.workers[w].claimed, result, st.clock);
  }

  lemma ExecutingFits(st: State, w: nat)
    requires PcsInv(st) && w in st.workers && st.workers[w].Executing?
    ensures ClaimFits(st.db, st.workers[w].claimed)
  {
    assert WorkerFits(st, st.workers[w]);
    hide ClaimFits;
  }

  lemma IsSilent(st: State, end: State, s: Uuid)
    requires (forall p :: !Told(st, s, p)) && Bare(st, s)
    requires s in end.returned && end.events == st.events && end.stream == st.stream && end.jobs == st.jobs
    ensures Silent(end, s)
  {
    forall p ensures !Told(end, s, p) { assert !Told(st, s, p); }
    forall e ensures !Carries(end, s, e) {}
  }

  /** From an exposed attempt, a continuation with harmless claims only loses the
      result. */
  lemma ExposedCanLose(cfg: Config, st: State, w: nat, s: Uuid) returns (more: seq<Action>, end: State)
    requires Sound(cfg, st) && Exposed(st, w, s)
    ensures Run(cfg, st, more) == Some(end) && BackedRun(cfg, st, more) && Silent(end, s)
  {
    hide Sound, Exposed, Bare, Silent, Run, BackedRun;
    var first, mid := DropAll(cfg, st, w, s);
    var rest;
    rest, end := FinishSilently(cfg, mid, w, s);
    Recovery.RunAppend(cfg, st, first, rest);
    BackedJoin(cfg, st, first, rest);
    more := first + rest;
  }

  /** Told to both players, or carried by an entry nobody is about to remove. */
  ghost predicate Published(st: State, s: Uuid)
    requires s in st.returned
  {
    ToldBoth(st, s) || Covered(st, s)
  }

  lemma SilentIsUnpublished(cfg: Config, st: State, s: Uuid)
    requires SafetyInv(cfg, st) && Silent(st, s)
    ensures !Published(st, s)
  {
    assert RecordFits(st.db, st.returned[s]);
    assert MatchOk(st.db, st.db.matches[st.returned[s].matchId]);
    var p := st.returned[s].players[0];
    assert p in st.returned[s].players && !Told(st, s, p);
    hide SafetyInv, Covered, Told;
  }

  lemma AcquiredIsExposed(cfg: Config, st: State, a: Action, s: Uuid)
    requires ValidConfig(cfg) && SafetyInv(cfg, st) && Acquires(cfg, st, a, s)
    requires !Backed(Step(cfg, st, a).value, s)
    ensures a.Work? && Exposed(Step(cfg, st, a).value, a.w, s)
  {
    hide SafetyInv, ClaimStep, Backed, DbInv, JobsInv, PcsInv, ResultsInv, Owns, RunningSub;
    SafetyParts(cfg, st);
    ClaimRuns(cfg, st, a.w, a.does.token, s);
    AcquiringSteps(cfg, st, a, s);
  }

  /** The row an acquiring claim leaves: running, owned, under a fresh lease. */
  lemma ClaimRuns(cfg: Config, st: State, w: nat, token: Uuid, s: Uuid)
    requires ValidConfig(cfg) && DbInv(cfg.maxAttempts, st.db) && Acquires(cfg, st, Work(w, Claim(token)), s)
    ensures var next := ClaimStep(cfg, st, w, token).value;
      && w in next.workers && next.workers[w].Executing? && next.workers[w].claimed.sub == s
      && RunningSub(next.db, s) && Owns(next.db.subs[s], next.workers[w].claimed)
      && next.db.subs[s].lease == Some(st.clock + cfg.attemptLease) && next.clock == st.clock
  {
    hide DbInv, ClaimTx, ClaimFits, Announceable, Owns, RunningSub;
    var job := st.workers[w].job;
    if job.JobFor? {
      AcquiredRow(cfg.maxAttempts, st.db, job.sub, token, cfg.attemptLease, st.clock);
    }
  }

  lemma AcquiredRow(max: nat, db: Db, s: Uuid, token: Uuid, lease: nat, now: nat)
    requires DbInv(max, db) && ClaimTx(db, s, token, lease, now).1.Acquired?
    ensures var (db', res) := ClaimTx(db, s, token, lease, now);
      && res.claimed.sub == s && RunningSub(db', s)
      && Owns(db'.subs[s], res.claimed) && db'.subs[s].lease == Some(now + lease)
  {
    ClaimMeaning(max, db, s, token, lease, now);
    hide ClaimTx, ClaimFits, DbInv;
  }

  /** At the end of a run with backed claims: acquiring a submission leaves it with a
      safe entry if and only if no continuation with backed claims can lose its
      result. */
  lemma ClaimMustBeBacked(cfg: Config, init: State, acts: seq<Action>, st: State, a: Action, s: Uuid)
    requires Reaches(cfg, init, acts, st) && BackedRun(cfg, init, acts) && Acquires(cfg, st, a, s)
    ensures Step(cfg, st, a).Some?
    ensures var next := Step(cfg, st, a).value;
      Backed(next, s) <==>
        forall more | Run(cfg, next, more).Some? && BackedRun(cfg, next, more)
            && s in Run(cfg, next, more).value.returned ::
          Published(Run(cfg, next, more).value, s)
  {
    InitSafe(cfg, init);
    InitPublished(cfg, init);
    InitHands(init);
    hide SafetyInv, HandsInv, RunningInv, PublishedInv, Run, BackedRun, Backed, Published, Acquires;
    RunPublishes(cfg, init, acts);
    RunHands(cfg, init, acts);
    AcquiringSteps(cfg, st, a, s);
    var next := Step(cfg, st, a).value;
    StepKeeps(cfg, st, a);
    SafeHands(cfg, st, a);
    if Backed(next, s) {
      AcquiresOne(cfg, st, a, s);
      StepPublishes(cfg, st, a);
      forall more | Run(cfg, next, more).Some? && BackedRun(cfg, next, more) && s in Run(cfg, next, more).value.returned
        ensures Published(Run(cfg, next, more).value, s)
      {
        StaysPublished(cfg, next, more, s);
      }
    } else {
      AcquiredIsExposed(cfg, st, a, s);
      var more, end := ExposedCanLose(cfg, next, a.w, s);
      RunKeeps(cfg, next, more);
      SilentIsUnpublished(cfg, end, s);
    }
  }

  lemma AcquiringSteps(cfg: Config, st: State, a: Action, s: Uuid)
    requires Acquires(cfg, st, a, s)
    ensures Step(cfg, st, a).Some?
  {
    hide ClaimStep;
  }

  lemma AcquiresOne(cfg: Config, st: State, a: Action, s: Uuid)
    requires Acquires(cfg, st, a, s) && Step(cfg, st, a).Some? && Backed(Step(cfg, st, a).value, s)
    ensures BackedStep(cfg, st, a)
  {
    hide ClaimStep, Backed;
  }

  lemma SafeHands(cfg: Config, st: State, a: Action)
    requires SafetyInv(cfg, st) && HandsInv(st) && Step(cfg, st, a).Some?
    ensures HandsInv(Step(cfg, st, a).value)
  {
    assert JobsInv(st) && PcsInv(st);
    hide SafetyInv, JobsInv, PcsInv, HandsInv, Step;
    StepHands(cfg, st, a);
  }

  lemma StaysPublished(cfg: Config, st: State, more: seq<Action>, s: Uuid)
    requires ValidConfig(cfg) && SafetyInv(cfg, st) && RunningInv(st) && PublishedInv(st)
    requires Run(cfg, st, more).Some? && BackedRun(cfg, st, more) && s in Run(cfg, st, more).value.returned
    ensures Published(Run(cfg, st, more).value, s)
  {
    hide SafetyInv, RunningInv, PublishedInv, Run, BackedRun;
    RunPublishes(cfg, st, more);
    PublishedOf(Run(cfg, st, more).value, s);
  }
}
