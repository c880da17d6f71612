// Who has which stream entry in hand: an entry is read once, so no two workers ever
// work on the same one, and nothing in anybody's hands is still to be read.
module Hands {
  import opened Base
  import opened JudgeStore
  import opened JudgeResult
  import opened Stream
  import opened Protocol
  import opened ProtocolSafety
  import Dispatch

  ghost predicate WorkersApart(workers: map<nat, WorkerPc>) {
    forall v, w | v in workers && w in workers && v != w && !workers[v].Idle? && !workers[w].Idle? ::
      workers[v].entry != workers[w].entry
  }

  ghost predicate WorkersRead(workers: map<nat, WorkerPc>, undelivered: seq<nat>) {
    forall w | w in workers && !workers[w].Idle? :: workers[w].entry !in undelivered
  }

  ghost predicate ReapersRead(reapers: map<nat, ReaperPc>, undelivered: seq<nat>) {
    forall r | r in reapers && !reapers[r].Free? :: reapers[r].entry !in undelivered
  }

  ghost predicate HandsInv(st: State) {
    && WorkersApart(st.workers)
    && WorkersRead(st.workers, st.stream.undelivered) && ReapersRead(st.reapers, st.stream.undelivered)
  }

  lemma InitHands(st: State)
    requires Init(st)
    ensures HandsInv(st)
  {
  }

  /** A worker that reads takes the front of the queue; any other step leaves it with
      the entry it had, or with none. */
  lemma WorkerTakes(cfg: Config, st: State, w: nat, a: WorkerAction)
    requires StreamOk(st.stream) && WorkerStep(cfg, st, w, a).Some?
    ensures var st' := WorkerStep(cfg, st, w, a).value;
      && w in st'.workers
      && (if a.Read? then
            (&& st.stream.undelivered != [] && st'.stream.undelivered == st.stream.undelivered[1..]
             && st.stream.undelivered[0] !in st'.stream.undelivered
             && st'.workers[w].Received? && st'.workers[w].entry == st.stream.undelivered[0])
          else
            (&& st'.stream.undelivered == st.stream.undelivered
             && (st'.workers[w].Idle?
                 || (w in st.workers && !st.workers[w].Idle? && st'.workers[w].entry == st.workers[w].entry))))
  {
    hide ClaimTx, CompleteTx, EventFor, Announceable;
  }

  lemma WorkerHands(cfg: Config, st: State, w: nat, a: WorkerAction)
    requires StreamOk(st.stream) && HandsInv(st) && WorkerStep(cfg, st, w, a).Some?
    ensures HandsInv(WorkerStep(cfg, st, w, a).value)
  {
    WorkerTakes(cfg, st, w, a);
    WorkerMoves(cfg, st, w, a);
    hide WorkerStep, StreamOk;
  }

  /** A sweep takes a pending entry; any other step of a reaper leaves it with the
      entry it had, or with none, and adds new ids only. */
  lemma SweeperTakes(cfg: Config, st: State, r: nat, a: SweepAction)
    requires StreamOk(st.stream) && SweeperStep(cfg, st, r, a).Some?
    ensures var st' := SweeperStep(cfg, st, r, a).value;
      && r in st'.reapers
      && (st'.stream.undelivered == st.stream.undelivered
          || st'.stream.undelivered == st.stream.undelivered + [st.stream.next])
      && (|| st'.reapers[r].Free?
          || (a.Sweep? && st'.reapers[r].entry in st.stream.pel)
          || (r in st.reapers && !st.reapers[r].Free? && st'.reapers[r].entry == st.reapers[r].entry))
  {
    hide Dispatch.MarkTx;
  }

  lemma SweeperHands(cfg: Config, st: State, r: nat, a: SweepAction)
    requires JobsInv(st) && PcsInv(st) && HandsInv(st) && SweeperStep(cfg, st, r, a).Some?
    ensures HandsInv(SweeperStep(cfg, st, r, a).value)
  {
    var st' := SweeperStep(cfg, st, r, a).value;
    SweeperTakes(cfg, st, r, a);
    SweeperHistory(cfg, st, r, a);
    PendingIsRead(st);
    NextIsFree(st);
    hide SweeperStep, JobsInv, PcsInv;
  }

  lemma PendingIsRead(st: State)
    requires JobsInv(st)
    ensures forall e | e in st.stream.pel :: e !in st.stream.undelivered && e < st.stream.next
  {
  }

  /** The next id is in nobody's hands. */
  lemma NextIsFree(st: State)
    requires JobsInv(st) && PcsInv(st)
    ensures forall w | w in st.workers && !st.workers[w].Idle? :: st.workers[w].entry != st.stream.next
    ensures forall r | r in st.reapers && !st.reapers[r].Free? :: st.reapers[r].entry != st.stream.next
  {
    forall w | w in st.workers && !st.workers[w].Idle? ensures st.workers[w].entry != st.stream.next {
      assert WorkerFits(st, st.workers[w]);
    }
    forall r | r in st.reapers && !st.reapers[r].Free? ensures st.reapers[r].entry != st.stream.next {
      assert ReaperFits(st, st.reapers[r]);
    }
    hide StreamOk;
  }

  lemma OtherHands(cfg: Config, st: State, a: Action)
    requires JobsInv(st) && PcsInv(st) && HandsInv(st) && Step(cfg, st, a).Some? && !a.Work? && !a.Reap?
    ensures HandsInv(Step(cfg, st, a).value)
  {
    NextIsFree(st);
    if a.Table? { TableHistory(cfg, st, a.what); }
    hide TableStep, JobsInv, PcsInv, Dispatch.MarkTx;
  }

  lemma StepHands(cfg: Config, st: State, a: Action)
    requires JobsInv(st) && PcsInv(st) && HandsInv(st) && Step(cfg, st, a).Some?
    ensures HandsInv(Step(cfg, st, a).value)
  {
    assert StreamOk(st.stream);
    hide JobsInv, PcsInv, HandsInv, StreamOk, WorkerStep, SweeperStep, TableStep, EnqueueStep, MarkStep;
    match a {
      case Work(w, t) => WorkerHands(cfg, st, w, t);
      case Reap(r, t) => SweeperHands(cfg, st, r, t);
      case _ => OtherHands(cfg, st, a);
    }
  }

  lemma {:induction false} RunHands(cfg: Config, st: State, acts: seq<Action>)
    requires ValidConfig(cfg) && SafetyInv(cfg, st) && HandsInv(st) && Run(cfg, st, acts).Some?
    ensures HandsInv(Run(cfg, st, acts).value)
    decreases |acts|
  {
    if acts != [] {
      assert JobsInv(st) && PcsInv(st);
      hide Step, SafetyInv, JobsInv, PcsInv, HandsInv;
      StepKeeps(cfg, st, acts[0]);
      StepHands(cfg, st, acts[0]);
      RunHands(cfg, Step(cfg, st, acts[0]).value, acts[1..]);
    }
  }
}
