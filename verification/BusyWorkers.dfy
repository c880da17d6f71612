// Which workers a reaper may take entries from, and what the configuration does about
// it: StreamMinIdle keeps an entry with its worker for as long as the worker keeps to
// its times, and a worker that still has its entry claims through a safe one.
module BusyWorkers {
  import opened Base
  import opened JudgeStore
  import opened JudgeResult
  import opened Stream
  import opened Protocol
  import opened ProtocolSafety
  import opened ProtocolTheorems
  import opened ProtocolPublication
  import opened Hands
  import Dispatch
  import Sandbox

  /** Workers at work on an entry: all of them, or those that have yet to claim. */
  predicate Concerned(all: bool, pc: WorkerPc) {
    !pc.Idle? && (all || pc.Received?)
  }

  /** The step takes no entry over from such a worker. */
  ghost predicate Undisturbed(all: bool, st: State, a: Action) {
    a.Reap? && a.step.Sweep? ==>
      forall w | w in st.workers && Concerned(all, st.workers[w]) :: st.workers[w].entry != a.step.entry
  }

  ghost predicate UndisturbedRun(all: bool, cfg: Config, st: State, acts: seq<Action>)
    decreases |acts|
  {
    acts != [] ==>
      (&& Undisturbed(all, st, acts[0])
       && (Step(cfg, st, acts[0]).Some? ==> UndisturbedRun(all, cfg, Step(cfg, st, acts[0]).value, acts[1..])))
  }

  lemma {:induction false} ClaimersUndisturbed(cfg: Config, st: State, acts: seq<Action>)
    requires UndisturbedRun(true, cfg, st, acts)
    ensures UndisturbedRun(false, cfg, st, acts)
    decreases |acts|
  {
    hide Step;
    if acts != [] && Step(cfg, st, acts[0]).Some? {
      ClaimersUndisturbed(cfg, Step(cfg, st, acts[0]).value, acts[1..]);
    }
  }

  // ------------------------------------------------ undisturbed claims are backed

  ghost predicate Held(st: State, w: nat, e: nat) {
    e in st.stream.pel && st.stream.pel[e].owner == JudgeConsumer(w)
  }

  ghost predicate TakenOver(st: State, e: nat) {
    e in st.stream.entries ==> e in st.stream.pel && st.stream.pel[e].owner.ReaperConsumer?
  }

  /** A worker that has yet to claim owns its pending entry; an entry in a reaper's
      hands belongs to reapers only. */
  ghost predicate HoldInv(st: State) {
    && (forall w | w in st.workers && st.workers[w].Received? :: Held(st, w, st.workers[w].entry))
    && (forall r | r in st.reapers && !st.reapers[r].Free? :: TakenOver(st, st.reapers[r].entry))
  }

  lemma WorkerHolds(cfg: Config, st: State, w: nat, a: WorkerAction)
    requires StreamOk(st.stream) && HandsInv(st) && HoldInv(st) && WorkerStep(cfg, st, w, a).Some?
    ensures HoldInv(WorkerStep(cfg, st, w, a).value)
  {
    hide StreamOk, HandsInv, HoldInv, ReadStep, AckStep, ClaimStep, FinishStep, PublishStep;
    match a {
      case Read => ReadHolds(cfg, st, w);
      case Ack => AckHolds(cfg, st, w);
      case _ => OtherHolds(cfg, st, w, a);
    }
  }

  lemma OtherHolds(cfg: Config, st: State, w: nat, a: WorkerAction)
    requires HoldInv(st) && WorkerStep(cfg, st, w, a).Some? && !a.Read? && !a.Ack?
    ensures HoldInv(WorkerStep(cfg, st, w, a).value)
  {
    WorkerMoves(cfg, st, w, a);
    OtherShape(cfg, st, w, a);
    hide WorkerStep;
  }

  /** Steps other than reading and acknowledging leave the stream alone and the worker
      past its claim. */
  lemma OtherShape(cfg: Config, st: State, w: nat, a: WorkerAction)
    requires WorkerStep(cfg, st, w, a).Some? && !a.Read? && !a.Ack?
    ensures var st' := WorkerStep(cfg, st, w, a).value;
      st'.stream == st.stream && w in st'.workers && !st'.workers[w].Received?
  {
    hide ClaimTx, CompleteTx, EventFor, Announceable;
  }

  lemma ReadHolds(cfg: Config, st: State, w: nat)
    requires StreamOk(st.stream) && HoldInv(st) && ReadStep(st, w).Some?
    ensures HoldInv(ReadStep(st, w).value)
  {
  }

  lemma AckHolds(cfg: Config, st: State, w: nat)
    requires StreamOk(st.stream) && HandsInv(st) && HoldInv(st) && AckStep(st, w).Some?
    ensures HoldInv(AckStep(st, w).value)
  {
  }

  lemma SweeperHolds(cfg: Config, st: State, r: nat, a: SweepAction)
    requires JobsInv(st) && PcsInv(st) && HoldInv(st) && SweeperStep(cfg, st, r, a).Some?
    requires Undisturbed(false, st, Reap(r, a))
    ensures HoldInv(SweeperStep(cfg, st, r, a).value)
  {
    hide JobsInv, PcsInv, HoldInv, Undisturbed, SweepStep, RemoveStep, ReplaceStep, CheckStep, RemarkStep;
    match a {
      case Sweep(e) => SweepHolds(cfg, st, r, e);
      case Remove => RemoveHolds(cfg, st, r);
      case Replace => ReplaceHolds(cfg, st, r);
      case _ => SameEntryHolds(cfg, st, r, a);
    }
  }

  lemma SameEntryHolds(cfg: Config, st: State, r: nat, a: SweepAction)
    requires HoldInv(st) && SweeperStep(cfg, st, r, a).Some? && (a.Check? || a.Remark? || a.Abandon?)
    ensures HoldInv(SweeperStep(cfg, st, r, a).value)
  {
    hide Dispatch.MarkTx, Held, TakenOver, HoldInv;
    var st' := SweeperStep(cfg, st, r, a).value;
    assert st'.stream == st.stream && st'.workers == st.workers;
    assert st'.reapers == st.reapers[r := st'.reapers[r]];
    assert st'.reapers[r].Free?
        || (r in st.reapers && !st.reapers[r].Free? && st'.reapers[r].entry == st.reapers[r].entry);
    HoldsFrame(st, st', r);
  }

  lemma HoldsFrame(st: State, st': State, r: nat)
    requires HoldInv(st) && st'.stream == st.stream && st'.workers == st.workers
    requires r in st'.reapers && st'.reapers == st.reapers[r := st'.reapers[r]]
    requires st'.reapers[r].Free?
        || (r in st.reapers && !st.reapers[r].Free? && st'.reapers[r].entry == st.reapers[r].entry)
    ensures HoldInv(st')
  {
  }

  lemma SweepHolds(cfg: Config, st: State, r: nat, e: nat)
    requires HoldInv(st) && SweepStep(cfg, st, r, e).Some? && Undisturbed(false, st, Reap(r, Sweep(e)))
    ensures HoldInv(SweepStep(cfg, st, r, e).value)
  {
  }

  lemma RemoveHolds(cfg: Config, st: State, r: nat)
    requires JobsInv(st) && HoldInv(st) && RemoveStep(st, r).Some?
    ensures HoldInv(RemoveStep(st, r).value)
  {
  }

  lemma ReplaceHolds(cfg: Config, st: State, r: nat)
    requires JobsInv(st) && PcsInv(st) && HoldInv(st) && ReplaceStep(st, r).Some?
    ensures HoldInv(ReplaceStep(st, r).value)
  {
    NextIsFree(st);
    hide PcsInv;
  }

  lemma EnqueueHolds(st: State, d: nat, sub: Uuid)
    requires JobsInv(st) && PcsInv(st) && HoldInv(st) && EnqueueStep(st, d, sub).Some?
    ensures HoldInv(EnqueueStep(st, d, sub).value)
  {
    NextIsFree(st);
    hide PcsInv;
  }

  lemma HandsHold(st: State, st': State)
    requires HoldInv(st) && st'.stream == st.stream && st'.workers == st.workers && st'.reapers == st.reapers
    ensures HoldInv(st')
  {
  }

  lemma StepHolds(cfg: Config, st: State, a: Action)
    requires JobsInv(st) && PcsInv(st) && HandsInv(st) && HoldInv(st) && Undisturbed(false, st, a)
    requires Step(cfg, st, a).Some?
    ensures HoldInv(Step(cfg, st, a).value)
  {
    assert StreamOk(st.stream);
    hide JobsInv, PcsInv, HandsInv, HoldInv, StreamOk, Undisturbed, WorkerStep, SweeperStep, TableStep, EnqueueStep;
    match a {
      case Work(w, t) => WorkerHolds(cfg, st, w, t);
      case Reap(r, t) => SweeperHolds(cfg, st, r, t);
      case Table(t) =>
        TableHistory(cfg, st, t);
        HandsHold(st, Step(cfg, st, a).value);
      case Enqueue(d, sub) => EnqueueHolds(st, d, sub);
      case _ =>
        hide Dispatch.MarkTx;
        HandsHold(st, Step(cfg, st, a).value);
    }
  }

  /** A worker that has yet to claim is alone with its entry. */
  lemma HeldAlone(st: State, w: nat)
    requires StreamOk(st.stream) && HandsInv(st) && HoldInv(st) && w in st.workers && st.workers[w].Received?
    ensures st.workers[w].entry in st.stream.pel && OnlyWorker(st, w, st.workers[w].entry)
  {
    assert Held(st, w, st.workers[w].entry);
  }

  lemma StepBacked(cfg: Config, st: State, a: Action)
    requires JobsInv(st) && PcsInv(st) && HandsInv(st) && HoldInv(st)
    ensures BackedStep(cfg, st, a)
  {
    if s :| Acquires(cfg, st, a, s) {
      assert StreamOk(st.stream);
      ClaimShape(cfg, st, a.w, a.does.token, s);
      hide JobsInv, PcsInv, HandsInv, HoldInv, StreamOk, Acquires, OnlyWorker, Step, BackedStep;
      HeldAlone(st, a.w);
      OwnEntryBacks(cfg, st, a.w, a.does.token);
    }
  }

  /** If no sweep takes an entry from a worker that has yet to claim, every claim is
      backed. */
  lemma {:induction false} UndisturbedIsBacked(cfg: Config, st: State, acts: seq<Action>)
    requires ValidConfig(cfg) && SafetyInv(cfg, st) && HandsInv(st) && HoldInv(st)
    requires UndisturbedRun(false, cfg, st, acts) && Run(cfg, st, acts).Some?
    ensures BackedRun(cfg, st, acts)
    decreases |acts|
  {
    if acts != [] {
      assert JobsInv(st) && PcsInv(st);
      hide Step, SafetyInv, HandsInv, HoldInv, JobsInv, PcsInv, Undisturbed, BackedStep;
      StepBacked(cfg, st, acts[0]);
      StepKeeps(cfg, st, acts[0]);
      StepHands(cfg, st, acts[0]);
      StepHolds(cfg, st, acts[0]);
      UndisturbedIsBacked(cfg, Step(cfg, st, acts[0]).value, acts[1..]);
    }
  }

  // ------------------------------------------------------------- time and StreamMinIdle

  /** The clock does not make the entry of such a worker idle enough to be swept. */
  ghost predicate Timely(all: bool, cfg: Config, st: State, a: Action) {
    a.Tick? ==> forall w | w in st.workers && Concerned(all, st.workers[w]) && st.workers[w].entry in st.stream.pel ::
      st.clock + a.delta < st.stream.pel[st.workers[w].entry].since + cfg.streamMinIdle
  }

  ghost predicate TimelyRun(all: bool, cfg: Config, st: State, acts: seq<Action>)
    decreases |acts|
  {
    acts != [] ==>
      (&& Timely(all, cfg, st, acts[0])
       && (Step(cfg, st, acts[0]).Some? ==> TimelyRun(all, cfg, Step(cfg, st, acts[0]).value, acts[1..])))
  }

  ghost predicate OnTime(all: bool, cfg: Config, st: State) {
    forall w | w in st.workers && Concerned(all, st.workers[w]) && st.workers[w].entry in st.stream.pel ::
      st.clock < st.stream.pel[st.workers[w].entry].since + cfg.streamMinIdle
  }

  /** A step of a worker leaves delivery times alone, except that of the entry it reads. */
  lemma WorkerTimes(cfg: Config, st: State, w: nat, a: WorkerAction)
    requires WorkerStep(cfg, st, w, a).Some?
    ensures var st' := WorkerStep(cfg, st, w, a).value;
      && st'.clock == st.clock && w in st'.workers
      && (forall e | e in st'.stream.pel ::
            (e in st.stream.pel && st'.stream.pel[e] == st.stream.pel[e])
            || (a.Read? && e == st'.workers[w].entry && st'.stream.pel[e].since == st.clock))
      && (a.Read? ==> st'.workers[w].Received?)
      && (!a.Read? && !st'.workers[w].Idle? ==>
            w in st.workers && !st.workers[w].Idle? && st'.workers[w].entry == st.workers[w].entry
                && !st'.workers[w].Received?)
  {
    hide ClaimTx, CompleteTx, EventFor, Announceable;
  }

  lemma WorkerOnTime(all: bool, cfg: Config, st: State, w: nat, a: WorkerAction)
    requires ValidConfig(cfg) && OnTime(all, cfg, st) && WorkerStep(cfg, st, w, a).Some?
    requires HandsInv(st) && StreamOk(st.stream)
    ensures OnTime(all, cfg, WorkerStep(cfg, st, w, a).value)
  {
    WorkerMoves(cfg, st, w, a);
    WorkerTimes(cfg, st, w, a);
    WorkerHands(cfg, st, w, a);
    hide WorkerStep, StreamOk;
  }

  lemma StepOnTime(all: bool, cfg: Config, st: State, a: Action)
    requires ValidConfig(cfg) && HandsInv(st) && JobsInv(st)
    requires OnTime(all, cfg, st) && Timely(all, cfg, st, a) && Step(cfg, st, a).Some?
    ensures OnTime(all, cfg, Step(cfg, st, a).value)
  {
    assert StreamOk(st.stream);
    hide HandsInv, StreamOk, WorkerStep, SweeperStep, TableStep, JobsInv;
    match a {
      case Work(w, t) => WorkerOnTime(all, cfg, st, w, t);
      case Reap(r, t) => SweeperOnTime(all, cfg, st, r, t);
      case Table(t) => TableHistory(cfg, st, t);
      case _ =>
        hide Dispatch.MarkTx;
    }
  }

  lemma SweeperOnTime(all: bool, cfg: Config, st: State, r: nat, a: SweepAction)
    requires ValidConfig(cfg) && OnTime(all, cfg, st) && SweeperStep(cfg, st, r, a).Some?
    ensures OnTime(all, cfg, SweeperStep(cfg, st, r, a).value)
  {
    SweeperHistory(cfg, st, r, a);
    hide Dispatch.MarkTx;
  }

  /** What is idle enough to be swept is in no such worker's hands. */
  lemma SweepFindsNobody(all: bool, cfg: Config, st: State, a: Action)
    requires OnTime(all, cfg, st) && Step(cfg, st, a).Some?
    ensures Undisturbed(all, st, a)
  {
    hide WorkerStep, TableStep, EnqueueStep, MarkStep;
  }

  lemma {:induction false} TimelyIsUndisturbed(all: bool, cfg: Config, st: State, acts: seq<Action>)
    requires ValidConfig(cfg) && SafetyInv(cfg, st) && HandsInv(st) && OnTime(all, cfg, st)
    requires TimelyRun(all, cfg, st, acts) && Run(cfg, st, acts).Some?
    ensures UndisturbedRun(all, cfg, st, acts)
    decreases |acts|
  {
    if acts != [] {
      assert JobsInv(st) && PcsInv(st);
      hide Step, SafetyInv, HandsInv, OnTime, JobsInv, PcsInv, Timely, Undisturbed;
      SweepFindsNobody(all, cfg, st, acts[0]);
      StepKeeps(cfg, st, acts[0]);
      StepHands(cfg, st, acts[0]);
      StepOnTime(all, cfg, st, acts[0]);
      TimelyIsUndisturbed(all, cfg, Step(cfg, st, acts[0]).value, acts[1..]);
    }
  }

  lemma InitHeld(cfg: Config, init: State)
    requires Init(init)
    ensures HoldInv(init) && OnTime(true, cfg, init) && OnTime(false, cfg, init)
  {
  }

  /** Claiming within StreamMinIdle of reading is enough for at-least-once publication,
      however long workers then take to execute and to publish. */
  lemma ClaimedInTime(cfg: Config, init: State, acts: seq<Action>, st: State)
    requires Reaches(cfg, init, acts, st) && TimelyRun(false, cfg, init, acts)
    ensures BackedRun(cfg, init, acts)
    ensures forall s | s in st.returned :: ToldBoth(st, s) || Covered(st, s)
  {
    InitSafe(cfg, init);
    InitPublished(cfg, init);
    InitHands(init);
    InitHeld(cfg, init);
    hide SafetyInv, HandsInv, HoldInv, OnTime, RunningInv, PublishedInv, Run, TimelyRun, UndisturbedRun, BackedRun,
      Init;
    TimelyIsUndisturbed(false, cfg, init, acts);
    UndisturbedIsBacked(cfg, init, acts);
    RunPublishes(cfg, init, acts);
    forall s | s in st.returned ensures ToldBoth(st, s) || Covered(st, s) { PublishedOf(st, s); }
  }

  // ------------------------------------------------------------- times a worker keeps to

  /** How soon after reading a worker claims, the limits it executes under, and how
      soon after that it has published and finalised. */
  datatype Plan = Plan(claimWithin: nat, limits: Sandbox.Limits, announceWithin: nat)

  datatype Phase = Resting | Claiming | Judging | Announcing

  function PhaseOf(pc: WorkerPc): Phase {
    match pc
    case Idle => Resting
    case Received(_, _) => Claiming
    case Executing(_, _) => Judging
    case _ => Announcing
  }

  /** The longest a worker stays in a phase. The bound on executing is the one that
      `Sandbox.ExecuteUnderLease` keeps. */
  function Longest(plan: Plan, phase: Phase): nat {
    match phase
    case Resting => 0
    case Claiming => plan.claimWithin
    case Judging => Sandbox.LongestAttempt(plan.limits)
    case Announcing => plan.announceWithin
  }

  /** When each worker entered the phase it is in. */
  type Entered = map<nat, nat>

  ghost function Entering(cfg: Config, st: State, entered: Entered, a: Action): Entered {
    var next := Step(cfg, st, a);
    if a.Work? && next.Some? && PhaseOf(WorkerAt(next.value, a.w)) != PhaseOf(WorkerAt(st, a.w)) then
      entered[a.w := st.clock]
    else entered
  }

  /** The clock does not pass the time a busy worker has in its phase. */
  ghost predicate InPlan(plan: Plan, st: State, entered: Entered, a: Action) {
    a.Tick? ==> forall w | w in st.workers && w in entered && !st.workers[w].Idle? ::
      st.clock + a.delta <= entered[w] + Longest(plan, PhaseOf(st.workers[w]))
  }

  ghost predicate PlannedRun(cfg: Config, plan: Plan, st: State, entered: Entered, acts: seq<Action>)
    decreases |acts|
  {
    acts != [] ==>
      (&& InPlan(plan, st, entered, acts[0])
       && (Step(cfg, st, acts[0]).Some? ==>
             PlannedRun(cfg, plan, Step(cfg, st, acts[0]).value, Entering(cfg, st, entered, acts[0]), acts[1..])))
  }

  /** The latest, after its delivery, that a worker enters a phase. */
  function Offset(plan: Plan, phase: Phase): nat {
    match phase
    case Resting => 0
    case Claiming => 0
    case Judging => plan.claimWithin
    case Announcing => plan.claimWithin + Sandbox.LongestAttempt(plan.limits)
  }

  ghost predicate PlanInv(plan: Plan, st: State, entered: Entered) {
    forall w | w in st.workers && !st.workers[w].Idle? ::
      && w in entered && entered[w] <= st.clock <= entered[w] + Longest(plan, PhaseOf(st.workers[w]))
      && (st.workers[w].entry in st.stream.pel ==>
            entered[w] <= st.stream.pel[st.workers[w].entry].since + Offset(plan, PhaseOf(st.workers[w])))
  }

  /** How a worker moves on from phase to phase. */
  lemma PhasesFollow(cfg: Config, st: State, w: nat, a: WorkerAction)
    requires WorkerStep(cfg, st, w, a).Some?
    ensures var from, to := PhaseOf(WorkerAt(st, w)), PhaseOf(WorkerAt(WorkerStep(cfg, st, w, a).value, w));
      && (a.Read? <==> to == Claiming) && (a.Read? ==> from == Resting)
      && (to == Judging ==> from == Claiming) && (to == Announcing ==> from != Resting)
  {
    hide ClaimTx, CompleteTx, EventFor, Announceable;
  }

  lemma OffsetsGrow(plan: Plan)
    ensures Offset(plan, Claiming) + Longest(plan, Claiming) <= Offset(plan, Judging)
    ensures Offset(plan, Judging) + Longest(plan, Judging) <= Offset(plan, Announcing)
  {
  }

  lemma WorkerInPlan(cfg: Config, plan: Plan, st: State, entered: Entered, w: nat, a: WorkerAction)
    requires HandsInv(st) && StreamOk(st.stream) && PlanInv(plan, st, entered) && WorkerStep(cfg, st, w, a).Some?
    ensures PlanInv(plan, WorkerStep(cfg, st, w, a).value, Entering(cfg, st, entered, Work(w, a)))
  {
    WorkerMoves(cfg, st, w, a);
    WorkerTimes(cfg, st, w, a);
    WorkerHands(cfg, st, w, a);
    PhasesFollow(cfg, st, w, a);
    OffsetsGrow(plan);
    hide WorkerStep, StreamOk, Sandbox.LongestAttempt;
  }

  lemma SweeperInPlan(cfg: Config, plan: Plan, st: State, entered: Entered, r: nat, a: SweepAction)
    requires PlanInv(plan, st, entered) && SweeperStep(cfg, st, r, a).Some?
    ensures PlanInv(plan, SweeperStep(cfg, st, r, a).value, entered)
  {
    SweeperHistory(cfg, st, r, a);
    SweeperTimes(cfg, st, r, a);
    hide SweeperStep, Sandbox.LongestAttempt;
  }

  lemma SweeperTimes(cfg: Config, st: State, r: nat, a: SweepAction)
    requires SweeperStep(cfg, st, r, a).Some?
    ensures var st' := SweeperStep(cfg, st, r, a).value;
      forall e | e in st'.stream.pel :: e in st.stream.pel
        && (st'.stream.pel[e].since == st.stream.pel[e].since || st'.stream.pel[e].since == st.clock)
  {
    hide Dispatch.MarkTx;
  }

  lemma StepInPlan(cfg: Config, plan: Plan, st: State, entered: Entered, a: Action)
    requires HandsInv(st) && JobsInv(st) && PlanInv(plan, st, entered) && InPlan(plan, st, entered, a)
    requires Step(cfg, st, a).Some?
    ensures PlanInv(plan, Step(cfg, st, a).value, Entering(cfg, st, entered, a))
  {
    assert StreamOk(st.stream);
    hide HandsInv, StreamOk, WorkerStep, SweeperStep, TableStep, JobsInv, Sandbox.LongestAttempt;
    match a {
      case Work(w, t) => WorkerInPlan(cfg, plan, st, entered, w, t);
      case Reap(r, t) => SweeperInPlan(cfg, plan, st, entered, r, t);
      case Table(t) => TableHistory(cfg, st, t);
      case _ =>
        hide Dispatch.MarkTx;
    }
  }

  /** The plan fits into StreamMinIdle next to the lease. */
  predicate Fits(cfg: Config, plan: Plan) {
    Sandbox.LeaseCovers(cfg.attemptLease, plan.limits)
    && plan.claimWithin + cfg.attemptLease + plan.announceWithin <= cfg.streamMinIdle
  }

  lemma InPlanIsTimely(cfg: Config, plan: Plan, st: State, entered: Entered, a: Action)
    requires Fits(cfg, plan) && PlanInv(plan, st, entered) && InPlan(plan, st, entered, a)
    ensures Timely(true, cfg, st, a)
  {
  }

  lemma {:induction false} PlannedIsTimely(cfg: Config, plan: Plan, st: State, entered: Entered, acts: seq<Action>)
    requires ValidConfig(cfg) && SafetyInv(cfg, st) && HandsInv(st) && Fits(cfg, plan) && PlanInv(plan, st, entered)
    requires PlannedRun(cfg, plan, st, entered, acts) && Run(cfg, st, acts).Some?
    ensures TimelyRun(true, cfg, st, acts)
    decreases |acts|
  {
    if acts != [] {
      assert JobsInv(st) && PcsInv(st);
      hide Step, SafetyInv, HandsInv, PlanInv, JobsInv, PcsInv, Timely, InPlan, Entering, Fits;
      InPlanIsTimely(cfg, plan, st, entered, acts[0]);
      StepKeeps(cfg, st, acts[0]);
      StepHands(cfg, st, acts[0]);
      StepInPlan(cfg, plan, st, entered, acts[0]);
      PlannedIsTimely(cfg, plan, Step(cfg, st, acts[0]).value, Entering(cfg, st, entered, acts[0]), acts[1..]);
    }
  }

  lemma InitInPlan(plan: Plan, init: State)
    requires Init(init)
    ensures PlanInv(plan, init, map[])
  {
  }

  /** StreamMinIdle above the attempt lease, with room for claiming and announcing: no
      entry is ever taken from a worker that is still busy with it, if workers claim,
      execute and announce within their times, or die. */
  lemma NeverSweptWhileRunning(cfg: Config, plan: Plan, init: State, acts: seq<Action>, st: State)
    requires Reaches(cfg, init, acts, st) && Fits(cfg, plan) && PlannedRun(cfg, plan, init, map[], acts)
    ensures TimelyRun(true, cfg, init, acts) && UndisturbedRun(true, cfg, init, acts) && BackedRun(cfg, init, acts)
  {
    InitSafe(cfg, init);
    InitHands(init);
    InitHeld(cfg, init);
    InitInPlan(plan, init);
    hide SafetyInv, HandsInv, HoldInv, OnTime, PlanInv, Run, TimelyRun, PlannedRun, UndisturbedRun, BackedRun, Init;
    PlannedIsTimely(cfg, plan, init, map[], acts);
    TimelyIsUndisturbed(true, cfg, init, acts);
    ClaimersUndisturbed(cfg, init, acts);
    UndisturbedIsBacked(cfg, init, acts);
  }
}
