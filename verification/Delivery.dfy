// What at-least-once publication is for: as long as every acquiring claim was backed
// by a safe entry, ordinary work without a single failure brings every stored result
// to both players, whatever crashed or failed to publish before.
module Delivery {
  import opened Base
  import opened Rows
  import opened JudgeStore
  import opened JudgeResult
  import opened Stream
  import opened Protocol
  import opened ProtocolSafety
  import opened ProtocolTheorems
  import opened ProtocolPublication
  import opened Hands
  import opened Recovery

  /** Nothing crashes, no sweep is abandoned and every publish call succeeds. */
  predicate Healthy(acts: seq<Action>) {
    forall a | a in acts ::
      && (a.Work? ==> !a.does.Crash? && (a.does.Publish? ==> a.does.delivered && a.does.ok))
      && (a.Reap? ==> !a.step.Abandon?)
  }

  ghost predicate Sane(cfg: Config, st: State) {
    ValidConfig(cfg) && SafetyInv(cfg, st) && HandsInv(st) && RunningInv(st) && PublishedInv(st)
  }

  /** A healthy stretch of a run whose acquiring claims are backed. */
  ghost predicate Goes(cfg: Config, st: State, acts: seq<Action>, st': State) {
    Run(cfg, st, acts) == Some(st') && BackedRun(cfg, st, acts) && Healthy(acts)
  }

  lemma GoesKeeps(cfg: Config, st: State, acts: seq<Action>, st': State)
    requires Sane(cfg, st) && Goes(cfg, st, acts, st')
    ensures Sane(cfg, st') && Later(st, st')
  {
    hide SafetyInv, HandsInv, RunningInv, PublishedInv, Run, BackedRun, Later;
    RunPublishes(cfg, st, acts);
    RunHands(cfg, st, acts);
    RunKeeps(cfg, st, acts);
  }

  lemma GoesJoin(cfg: Config, st: State, a: seq<Action>, mid: State, b: seq<Action>, end: State)
    requires Goes(cfg, st, a, mid) && Goes(cfg, mid, b, end)
    ensures Goes(cfg, st, a + b, end)
  {
    hide Run, BackedRun;
    RunAppend(cfg, st, a, b);
    BackedJoin(cfg, st, a, b);
  }

  lemma GoesNowhere(cfg: Config, st: State)
    ensures Goes(cfg, st, [], st)
  {
  }

  lemma StepGoes(cfg: Config, st: State, a: Action, st': State)
    requires Step(cfg, st, a) == Some(st') && BackedStep(cfg, st, a) && Healthy([a])
    ensures Goes(cfg, st, [a], st')
  {
    assert [a][1..] == [] && [a][0] == a;
    hide Step, BackedStep;
    assert Run(cfg, st', []) == Some(st') && BackedRun(cfg, st', []);
    assert Run(cfg, st, [a]) == Run(cfg, st', [a][1..]);
  }

  lemma SanePieces(cfg: Config, st: State)
    requires Sane(cfg, st)
    ensures ValidConfig(cfg) && SafetyInv(cfg, st)
    ensures DbInv(cfg.maxAttempts, st.db) && JobsInv(st) && StreamOk(st.stream) && PcsInv(st) && ResultsInv(st)
  {
    hide SafetyInv, DbInv, JobsInv, PcsInv, ResultsInv, StreamOk, MarksInv, AcceptedInv, HandsInv, RunningInv,
      PublishedInv;
    SafetyParts(cfg, st);
  }

  lemma ResultFits(cfg: Config, st: State, s: Uuid)
    requires ResultsInv(st) && s in st.returned
    ensures st.returned[s].sub == s && RecordFits(st.db, st.returned[s])
  {
    hide RecordFits;
  }

  lemma StaysTold(st: State, st': State, s: Uuid)
    requires Later(st, st') && s in st.returned && ToldBoth(st, s)
    ensures s in st'.returned && ToldBoth(st', s)
  {
    ToldLater(st, st');
    hide Told;
  }

  // -------------------------------------------------------------- an entry in the queue

  lemma SeeThroughHealthy(w: nat, pc: WorkerPc, verdicts: Verdicts, token: Uuid)
    ensures var rest := SeeThrough(w, pc, verdicts);
      && Healthy([Work(w, Read), Work(w, Claim(token))] + rest)
      && forall a | a in rest :: !(a.Work? && a.does.Claim?)
  {
  }

  /** A worker that has just read an entry is the only one with it in hand. */
  lemma ReadAlone(cfg: Config, st: State, w: nat)
    requires HandsInv(st) && StreamOk(st.stream) && ReadStep(st, w).Some?
    ensures var read := ReadStep(st, w).value;
      && w in read.workers && read.workers[w].Received? && read.workers[w].entry in read.stream.pel
      && OnlyWorker(read, w, read.workers[w].entry)
  {
  }

  /** So whatever it claims next is backed. */
  lemma ReadClaimBacked(cfg: Config, st: State, w: nat, token: Uuid)
    requires Sane(cfg, st) && ReadStep(st, w).Some?
    ensures BackedRun(cfg, st, [Work(w, Read), Work(w, Claim(token))])
  {
    hide SafetyInv, DbInv, JobsInv, PcsInv, ResultsInv, MarksInv, AcceptedInv, HandsInv, RunningInv, PublishedInv,
      StreamOk;
    hide ReadStep, BackedStep, Step, OnlyWorker;
    SanePieces(cfg, st);
    var read, claim := ReadStep(st, w).value, Work(w, Claim(token));
    ReadIsStep(cfg, st, w);
    ReadAlone(cfg, st, w);
    StepKeeps(cfg, st, Work(w, Read));
    SafetyParts(cfg, read);
    OwnEntryBacks(cfg, read, w, token);
    NoClaimStep(cfg, st, Work(w, Read));
    assert [Work(w, Read), claim][1..] == [claim] && [claim][1..] == [];
    assert BackedRun(cfg, read, [claim]);
  }

  lemma ReadIsStep(cfg: Config, st: State, w: nat)
    ensures Step(cfg, st, Work(w, Read)) == ReadStep(st, w)
  {
    hide ReadStep;
  }

  lemma NoClaimStep(cfg: Config, st: State, a: Action)
    requires !(a.Work? && a.does.Claim?)
    ensures BackedStep(cfg, st, a)
  {
  }

  /** A judge round as a stretch of the run. */
  lemma JudgeGoes(cfg: Config, verdicts: Verdicts, st: State, w: nat, token: Uuid)
    returns (acts: seq<Action>, st': State)
    requires Sane(cfg, st) && Sound(verdicts)
    requires WorkerAt(st, w).Idle? && st.stream.undelivered != [] && token != NIL && token !in st.tokens
    ensures Goes(cfg, st, acts, st') && RunRound(cfg, verdicts, st, JudgeNext(w, token)) == Some(st')
    ensures JudgedOne(st, st', w)
  {
    hide SafetyInv, HandsInv, RunningInv, PublishedInv, Run, JudgedOne, SeeThrough, Healthy, OthersSame, Judgeable,
      BackedRun, DbInv, JobsInv, PcsInv, ResultsInv, ReadStep, StreamOk, MarksInv, AcceptedInv, Sane, Sound,
      ClaimStep, Step;
    SanePieces(cfg, st);
    JudgeRuns(cfg, verdicts, st, w, token);
    ReadLeadsOn(cfg, st, w);
    ReadClaimBacked(cfg, st, w, token);
    st' := RunRound(cfg, verdicts, st, JudgeNext(w, token)).value;
    var start := [Work(w, Read), Work(w, Claim(token))];
    var claimed := Run(cfg, st, start).value;
    var rest := SeeThrough(w, WorkerAt(claimed, w), verdicts);
    SeeThroughHealthy(w, WorkerAt(claimed, w), verdicts, token);
    RunAppend(cfg, st, start, rest);
    NoClaims(cfg, claimed, rest);
    BackedJoin(cfg, st, start, rest);
    acts := start + rest;
  }

  /** The claim of a submission with a stored result hands that result out. */
  lemma ClaimOfResult(max: nat, db: Db, known: Record, token: Uuid, lease: nat, now: nat)
    requires DbInv(max, db) && RecordFits(db, known) && token != NIL && lease > 0
    ensures var res := ClaimTx(db, known.sub, token, lease, now).1;
      && res.AlreadyCompleted? && Announceable(res.record)
      && res.record.sub == known.sub && res.record.players == known.players && |res.record.players| == 2
  {
    var s := known.sub;
    assert SubOk(db, max, db.subs[s]) && MatchOk(db, db.matches[db.subs[s].matchId]);
    ClaimMeaning(max, db, s, token, lease, now);
    var res := ClaimTx(db, s, token, lease, now).1;
    assert res.AlreadyCompleted?;
    hide ClaimTx, SubOk, MatchOk, Standing, UniqueRequests, ClaimsExact;
    RebuiltFits(max, db, s, res.record);
    StoredRecordsAnnounce(max, db, res.record);
  }

  ghost predicate Announces(st: State, w: nat, s: Uuid, players: seq<Uuid>) {
    && w in st.workers && st.workers[w].Publishing? && st.workers[w].next == 0 && !st.workers[w].failed
    && st.workers[w].record.sub == s && st.workers[w].record.players == players && |players| == 2
  }

  lemma ClaimAnnounces(cfg: Config, st: State, w: nat, s: Uuid, token: Uuid)
    requires ValidConfig(cfg) && DbInv(cfg.maxAttempts, st.db) && s in st.returned
    requires st.returned[s].sub == s && RecordFits(st.db, st.returned[s])
    requires w in st.workers && st.workers[w].Received? && st.workers[w].job == JobFor(s)
    requires token != NIL && token !in st.tokens
    ensures ClaimStep(cfg, st, w, token).Some?
    ensures Announces(ClaimStep(cfg, st, w, token).value, w, s, st.returned[s].players)
  {
    hide DbInv, RecordFits, ClaimTx, Announceable;
    ClaimOfResult(cfg.maxAttempts, st.db, st.returned[s], token, cfg.attemptLease, st.clock);
  }

  lemma ReadSame(st: State, w: nat)
    requires ReadStep(st, w).Some?
    ensures ReadStep(st, w).value.returned == st.returned
  {
  }

  lemma HeadAnnounces(cfg: Config, st: State, s: Uuid, w: nat, token: Uuid)
    requires Sane(cfg, st) && s in st.returned && JobAt(st, 0, s)
    requires WorkerAt(st, w).Idle? && token != NIL && token !in st.tokens
    ensures var claimed := Run(cfg, st, [Work(w, Read), Work(w, Claim(token))]);
      claimed.Some? && Announces(claimed.value, w, s, st.returned[s].players)
  {
    SanePieces(cfg, st);
    hide SafetyInv, DbInv, JobsInv, PcsInv, ResultsInv, HandsInv, RunningInv, PublishedInv, Announces, RecordFits,
      ReadStep, ClaimStep, Run;
    ResultFits(cfg, st, s);
    ReadLeadsOn(cfg, st, w);
    ReadSame(st, w);
    ClaimAnnounces(cfg, ReadStep(st, w).value, w, s, token);
    ReadClaimRuns(cfg, st, w, token);
  }

  /** Reading the entry of a stored result tells both players. */
  lemma HeadTells(cfg: Config, verdicts: Verdicts, st: State, s: Uuid, w: nat, token: Uuid)
    requires Sane(cfg, st) && Sound(verdicts) && s in st.returned && JobAt(st, 0, s)
    requires WorkerAt(st, w).Idle? && token != NIL && token !in st.tokens
    requires RunRound(cfg, verdicts, st, JudgeNext(w, token)).Some?
    ensures var st' := RunRound(cfg, verdicts, st, JudgeNext(w, token)).value;
      Later(st, st') ==> s in st'.returned && ToldBoth(st', s)
  {
    hide Sane, Sound, JobAt, Run, Told;
    HeadAnnounces(cfg, st, s, w, token);
    var claimed := Run(cfg, st, [Work(w, Read), Work(w, Claim(token))]).value;
    AnnounceRuns(cfg, claimed, w);
    var st' := RunRound(cfg, verdicts, st, JudgeNext(w, token)).value;
    var r := claimed.workers[w].record;
    NewlyTold(st', EventFor(r, r.players[0]));
    NewlyTold(st', EventFor(r, r.players[1]));
    hide Evolves, SameWork;
    assert st.returned[s].players == r.players;
  }

  /** Idle workers read their way to the entry of a stored result. */
  lemma {:induction false} DeliverQueued(cfg: Config, verdicts: Verdicts, st: State, s: Uuid, i: nat)
    returns (acts: seq<Action>, st': State)
    requires Sane(cfg, st) && Sound(verdicts) && s in st.returned && JobAt(st, i, s)
    ensures Goes(cfg, st, acts, st') && s in st'.returned && ToldBoth(st', s)
    decreases i
  {
    hide SafetyInv, RunningInv, PublishedInv, RunRound, Goes, ToldBoth, Sane;
    var w := UnusedNat(st.workers.Keys);
    var token := UnusedNat(st.tokens);
    acts, st' := JudgeGoes(cfg, verdicts, st, w, token);
    GoesKeeps(cfg, st, acts, st');
    if i == 0 {
      HeadTells(cfg, verdicts, st, s, w, token);
    } else {
      assert st'.stream.undelivered[i - 1] == st.stream.undelivered[i];
      var rest, end := DeliverQueued(cfg, verdicts, st', s, i - 1);
      GoesJoin(cfg, st, acts, st', rest, end);
      acts, st' := acts + rest, end;
    }
  }

  // ------------------------------------------------------------------ a pending entry

  /** Once idle for long enough, a pending entry is swept and replaced. */
  lemma SweepReplaces(cfg: Config, st: State, e: nat, s: Uuid) returns (acts: seq<Action>, st': State)
    requires Sane(cfg, st) && s in st.returned && Carries(st, s, e) && e in st.stream.pel
    ensures Goes(cfg, st, acts, st') && JobAt(st', |st.stream.undelivered|, s)
  {
    SanePieces(cfg, st);
    hide SafetyInv, DbInv, JobsInv, PcsInv, ResultsInv, HandsInv, RunningInv, PublishedInv, Goes, Doomed, Sane,
      Step, BackedStep, Healthy;
    ResultFits(cfg, st, s);
    var r := UnusedNat(st.reapers.Keys);
    var wait := Tick(st.stream.pel[e].since + cfg.streamMinIdle);
    var waited := st.(clock := st.clock + wait.delta);
    CarriedIdles(st, waited, e, s, cfg.streamMinIdle);
    hide RecordFits, Carries;
    WaitGoes(cfg, st, wait, waited);
    acts, st' := SweepSteps(cfg, waited, r, e, s);
    GoesJoin(cfg, st, [wait], waited, acts, st');
    acts := [wait] + acts;
  }

  lemma CarriedIdles(st: State, waited: State, e: nat, s: Uuid, minIdle: nat)
    requires JobsInv(st) && Carries(st, s, e) && e in st.stream.pel
    requires waited == st.(clock := waited.clock) && st.stream.pel[e].since + minIdle <= waited.clock
    ensures IdleFor(waited.stream, e, minIdle, waited.clock) && waited.stream.entries[e] == JobFor(s)
  {
  }

  lemma WaitGoes(cfg: Config, st: State, wait: Action, waited: State)
    requires wait.Tick? && waited == st.(clock := st.clock + wait.delta)
    ensures Goes(cfg, st, [wait], waited)
  {
    StepGoes(cfg, st, wait, waited);
    hide Goes;
  }

  lemma SweepSteps(cfg: Config, st: State, r: nat, e: nat, s: Uuid) returns (acts: seq<Action>, st': State)
    requires r !in st.reapers && IdleFor(st.stream, e, cfg.streamMinIdle, st.clock) && st.stream.entries[e] == JobFor(s)
    requires s in st.db.subs && st.db.subs[s].status == Completed
    ensures Goes(cfg, st, acts, st') && JobAt(st', |st.stream.undelivered|, s)
  {
    hide Goes, Run, Step, BackedStep, Healthy, AddJob;
    var sweep, check, add := Reap(r, Sweep(e)), Reap(r, Check), Reap(r, Replace);
    SweepGoes(cfg, st, r, e, s);
    var swept := SweepStep(cfg, st, r, e).value;
    var checked := GoReaper(swept, r, Replacing(e, s));
    st' := GoReaper(AddJob(checked, s), r, Remarking(e, s));
    CheckGoes(cfg, swept, r, e, s);
    ReplaceGoes(cfg, checked, r, e, s);
    GoesJoin(cfg, st, [sweep], swept, [check], checked);
    GoesJoin(cfg, st, [sweep] + [check], checked, [add], st');
    acts := [sweep] + [check] + [add];
  }

  lemma SweepGoes(cfg: Config, st: State, r: nat, e: nat, s: Uuid)
    requires r !in st.reapers && IdleFor(st.stream, e, cfg.streamMinIdle, st.clock) && st.stream.entries[e] == JobFor(s)
    ensures SweepStep(cfg, st, r, e).Some?
    ensures var swept := SweepStep(cfg, st, r, e).value;
      && Goes(cfg, st, [Reap(r, Sweep(e))], swept) && r in swept.reapers && swept.reapers[r] == Checking(e, JobFor(s))
      && swept.db == st.db && swept.stream.undelivered == st.stream.undelivered
  {
    hide Goes;
    StepGoes(cfg, st, Reap(r, Sweep(e)), SweepStep(cfg, st, r, e).value);
  }

  lemma CheckGoes(cfg: Config, st: State, r: nat, e: nat, s: Uuid)
    requires r in st.reapers && st.reapers[r] == Checking(e, JobFor(s))
    requires s in st.db.subs && st.db.subs[s].status == Completed
    ensures Goes(cfg, st, [Reap(r, Check)], GoReaper(st, r, Replacing(e, s)))
  {
    hide Goes;
    StepGoes(cfg, st, Reap(r, Check), GoReaper(st, r, Replacing(e, s)));
  }

  lemma ReplaceGoes(cfg: Config, st: State, r: nat, e: nat, s: Uuid)
    requires r in st.reapers && st.reapers[r] == Replacing(e, s)
    ensures var st' := GoReaper(AddJob(st, s), r, Remarking(e, s));
      Goes(cfg, st, [Reap(r, Replace)], st') && JobAt(st', |st.stream.undelivered|, s)
  {
    hide Goes;
    StepGoes(cfg, st, Reap(r, Replace), GoReaper(AddJob(st, s), r, Remarking(e, s)));
  }

  lemma DeliverPending(cfg: Config, verdicts: Verdicts, st: State, e: nat, s: Uuid)
    returns (acts: seq<Action>, st': State)
    requires Sane(cfg, st) && Sound(verdicts) && s in st.returned && Carries(st, s, e) && e in st.stream.pel
    ensures Goes(cfg, st, acts, st') && s in st'.returned && ToldBoth(st', s)
  {
    hide Sane, Goes, ToldBoth, Carries, JobAt;
    var first, mid := SweepReplaces(cfg, st, e, s);
    GoesKeeps(cfg, st, first, mid);
    var rest, end := DeliverQueued(cfg, verdicts, mid, s, |st.stream.undelivered|);
    GoesJoin(cfg, st, first, mid, rest, end);
    acts, st' := first + rest, end;
  }

  // ------------------------------------------------------------------------ every result

  lemma DeliverCarried(cfg: Config, verdicts: Verdicts, st: State, e: nat, s: Uuid)
    returns (acts: seq<Action>, st': State)
    requires Sane(cfg, st) && Sound(verdicts) && s in st.returned && Carries(st, s, e)
    ensures Goes(cfg, st, acts, st') && s in st'.returned && ToldBoth(st', s)
  {
    SanePieces(cfg, st);
    hide SafetyInv, DbInv, PcsInv, ResultsInv, HandsInv, RunningInv, PublishedInv, Goes, ToldBoth, Sane, Doomed;
    if e in st.stream.pel {
      acts, st' := DeliverPending(cfg, verdicts, st, e, s);
    } else {
      var i :| 0 <= i < |st.stream.undelivered| && st.stream.undelivered[i] == e;
      assert JobAt(st, i, s);
      acts, st' := DeliverQueued(cfg, verdicts, st, s, i);
    }
  }

  lemma DeliverOne(cfg: Config, verdicts: Verdicts, st: State, s: Uuid) returns (acts: seq<Action>, st': State)
    requires Sane(cfg, st) && Sound(verdicts) && s in st.returned
    ensures Goes(cfg, st, acts, st') && s in st'.returned && ToldBoth(st', s)
  {
    assert ToldBoth(st, s) || Covered(st, s);
    hide SafetyInv, RunningInv, PublishedInv, Goes, ToldBoth, Carries;
    if ToldBoth(st, s) {
      acts, st' := [], st;
      GoesNowhere(cfg, st);
    } else {
      var e :| Carries(st, s, e);
      acts, st' := DeliverCarried(cfg, verdicts, st, e, s);
    }
  }

  lemma {:induction false} DeliverAll(cfg: Config, verdicts: Verdicts, st: State, some: set<Uuid>)
    returns (acts: seq<Action>, st': State)
    requires Sane(cfg, st) && Sound(verdicts) && some <= st.returned.Keys
    ensures Goes(cfg, st, acts, st') && some <= st'.returned.Keys
    ensures forall s | s in some :: ToldBoth(st', s)
    decreases |some|
  {
    hide Sane, Goes, ToldBoth, Later;
    if some == {} {
      acts, st' := [], st;
      GoesNowhere(cfg, st);
    } else {
      var s :| s in some;
      var first, mid := DeliverOne(cfg, verdicts, st, s);
      GoesKeeps(cfg, st, first, mid);
      ReturnedStay(st, mid);
      var rest, end := DeliverAll(cfg, verdicts, mid, some - {s});
      GoesKeeps(cfg, mid, rest, end);
      StaysTold(mid, end, s);
      ReturnedStay(mid, end);
      GoesJoin(cfg, st, first, mid, rest, end);
      acts, st' := first + rest, end;
    }
  }

  lemma ReturnedStay(st: State, st': State)
    requires Later(st, st')
    ensures st.returned.Keys <= st'.returned.Keys
  {
  }

  /** From every state reached with backed claims only, however many workers crashed or
      failed to publish on the way, some finite continuation without any further
      failure, and with backed claims only, tells both players of every result that
      was ever returned. */
  lemma AlwaysDelivered(cfg: Config, verdicts: Verdicts, init: State, acts: seq<Action>, st: State)
    returns (more: seq<Action>, end: State)
    requires Reaches(cfg, init, acts, st) && BackedRun(cfg, init, acts) && Sound(verdicts)
    ensures Run(cfg, st, more) == Some(end) && BackedRun(cfg, st, more) && Healthy(more)
    ensures forall s | s in st.returned :: s in end.returned && end.returned[s] == st.returned[s] && ToldBoth(end, s)
  {
    InitSafe(cfg, init);
    InitPublished(cfg, init);
    InitHands(init);
    hide SafetyInv, HandsInv, RunningInv, PublishedInv, ToldBoth, Run, BackedRun, Init;
    RunPublishes(cfg, init, acts);
    RunHands(cfg, init, acts);
    more, end := DeliverAll(cfg, verdicts, st, st.returned.Keys);
    GoesKeeps(cfg, st, more, end);
  }
}
