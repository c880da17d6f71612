// The container engine as the sandbox sees it: every call takes time but returns
// when its context ends, fails at once when the context has already ended, and may
// or may not have taken effect when it fails.
module SandboxEngine {
  import opened Base

  /** The containers of one attempt. */
  datatype Box = StagingBox | CompileBox | TestBox(index: nat)

  datatype Copy = CopyOk | CopyOverLimit | CopyBroken
  datatype Response = Response(broken: bool, code: int)

  /** What the wait channels deliver. */
  datatype WaitEvent = WaitError(failed: bool) | WaitDone(response: Response)

  /** What the first select of runContainer can receive. */
  datatype Event = ContextDone | OutputDone(copy: Copy) | Waited(wait: WaitEvent)

  /** What the engine is asked to do. */
  datatype Op =
    | CreatesVolume | Creates(box: Box) | Starts(box: Box) | CopiesSource | Attaches(box: Box) | Waits
    | Kills(box: Box) | Inspects(box: Box) | Removes(box: Box) | RemovesVolume

  datatype Removal = Removed | NoSuch | RemovalFailed

  /** The behaviour of the engine, call by call; any functions will do. */
  datatype Oracle = Oracle(
    delay: nat -> nat,
    succeeds: nat -> bool,
    effect: nat -> bool,
    event: nat -> Event,
    wait: nat -> WaitEvent,
    copy: nat -> Copy,
    inTime: nat -> bool,
    output: nat -> string,
    oom: Box -> Option<bool>)       // OOMKilled, or a missing state

  predicate Sound(wait: WaitEvent) {
    match wait
    case WaitError(failed) => !failed
    case WaitDone(response) => !response.broken
  }

  predicate Ends(e: Event) {
    match e
    case ContextDone => false
    case OutputDone(copy) => copy != CopyBroken
    case Waited(wait) => Sound(wait)
  }

  /** Call `n` goes through at once, and the process it may be about ends by itself. */
  predicate Answers(o: Oracle, n: nat) {
    && o.succeeds(n) && o.delay(n) == 0 && o.inTime(n)
    && Ends(o.event(n)) && Sound(o.wait(n)) && o.copy(n) != CopyBroken
  }

  /** An engine in good order. */
  ghost predicate Healthy(o: Oracle) {
    (forall n: nat :: Answers(o, n)) && (forall b :: o.oom(b).Some?)
  }

  lemma HealthyInspects(o: Oracle, b: Box)
    ensures Healthy(o) ==> o.oom(b).Some?
  {
  }

  class Engine {
    const oracle: Oracle
    var clock: nat
    var calls: nat
    ghost var log: seq<Op>           // the calls so far
    var containers: set<Box>
    var volume: bool

    constructor (oracle: Oracle, now: nat)
      ensures this.oracle == oracle && clock == now && containers == {} && !volume && log == []
    {
      this.oracle, clock, calls, containers, volume := oracle, now, 0, {}, false;
      log := [];
    }

    /** Time passes, but not beyond the context; an ended context fails on entry. */
    method Call(op: Op, deadline: nat) returns (ok: bool)
      modifies this`clock, this`calls, this`log
      ensures old(clock) <= clock <= if old(clock) < deadline then deadline else old(clock)
      ensures ok ==> old(clock) < deadline
      ensures Healthy(oracle) && old(clock) < deadline ==> ok && clock == old(clock)
      ensures calls == old(calls) + 1
      ensures log == old(log) + [op]
    {
      calls := calls + 1;
      log := log + [op];
      assert Healthy(oracle) ==> Answers(oracle, calls);
      if clock >= deadline {
        return false;
      }
      ok := oracle.succeeds(calls) && clock + oracle.delay(calls) <= deadline;
      clock := Min(clock + oracle.delay(calls), deadline);
    }

    method VolumeCreate(deadline: nat) returns (ok: bool)
      modifies this`clock, this`calls, this`log, this`volume
      ensures old(clock) <= clock <= if old(clock) < deadline then deadline else old(clock)
      ensures ok ==> old(clock) < deadline && volume
      ensures Healthy(oracle) && old(clock) < deadline ==> ok && clock == old(clock)
      ensures log == old(log) + [CreatesVolume]
    {
      ok := Call(CreatesVolume, deadline);
      if ok || oracle.effect(calls) {
        volume := true;
      }
    }

    method ContainerCreate(box: Box, deadline: nat) returns (ok: bool)
      modifies this`clock, this`calls, this`log, this`containers
      ensures old(clock) <= clock <= if old(clock) < deadline then deadline else old(clock)
      ensures ok ==> old(clock) < deadline && box in containers
      ensures containers == old(containers) || containers == old(containers) + {box}
      ensures Healthy(oracle) && old(clock) < deadline ==> ok && clock == old(clock)
      ensures log == old(log) + [Creates(box)]
    {
      ok := Call(Creates(box), deadline);
      if ok || oracle.effect(calls) {
        containers := containers + {box};
      }
    }

    method ContainerRemove(box: Box, deadline: nat) returns (r: Removal)
      modifies this`clock, this`calls, this`log, this`containers
      ensures old(clock) <= clock <= if old(clock) < deadline then deadline else old(clock)
      ensures r.Removed? ==> box in old(containers) && containers == old(containers) - {box}
      ensures r.NoSuch? ==> box !in old(containers) && containers == old(containers)
      ensures r.RemovalFailed? ==> containers == old(containers) || containers == old(containers) - {box}
      ensures Healthy(oracle) && old(clock) < deadline ==> !r.RemovalFailed? && clock == old(clock)
      ensures log == old(log) + [Removes(box)]
    {
      var ok := Call(Removes(box), deadline);
      if ok && box in containers {
        containers := containers - {box};
        return Removed;
      }
      if ok {
        return NoSuch;
      }
      if oracle.effect(calls) {
        containers := containers - {box};
      }
      r := RemovalFailed;
    }

    method VolumeRemove(deadline: nat) returns (r: Removal)
      modifies this`clock, this`calls, this`log, this`volume
      ensures old(clock) <= clock <= if old(clock) < deadline then deadline else old(clock)
      ensures r.Removed? || r.NoSuch? ==> !volume
      ensures volume ==> old(volume)
      ensures Healthy(oracle) && old(clock) < deadline ==> !r.RemovalFailed? && clock == old(clock)
      ensures log == old(log) + [RemovesVolume]
    {
      var ok := Call(RemovesVolume, deadline);
      if ok {
        r := if volume then Removed else NoSuch;
        volume := false;
        return;
      }
      if oracle.effect(calls) {
        volume := false;
      }
      r := RemovalFailed;
    }

    /** Waiting for something or the end of the context, whichever comes first. */
    method Await(deadline: nat) returns (ended: bool)
      modifies this`clock, this`calls, this`log
      ensures old(clock) <= clock <= if old(clock) < deadline then deadline else old(clock)
      ensures ended ==> deadline <= clock
      ensures Healthy(oracle) && old(clock) < deadline ==> !ended && clock == old(clock)
      ensures calls == old(calls) + 1
      ensures log == old(log) + [Waits]
    {
      calls := calls + 1;
      log := log + [Waits];
      assert Healthy(oracle) ==> Answers(oracle, calls);
      if clock < deadline {
        clock := Min(clock + oracle.delay(calls), deadline);
      }
      ended := deadline <= clock && !oracle.inTime(calls);
    }

    method Select(deadline: nat) returns (e: Event)
      modifies this`clock, this`calls, this`log
      ensures old(clock) <= clock <= if old(clock) < deadline then deadline else old(clock)
      ensures e.ContextDone? ==> deadline <= clock
      ensures Healthy(oracle) && old(clock) < deadline ==> Ends(e) && clock == old(clock)
      ensures calls == old(calls) + 1 && (e.ContextDone? || e == oracle.event(calls))
      ensures log == old(log) + [Waits]
    {
      var ended := Await(deadline);
      assert Healthy(oracle) ==> Answers(oracle, calls);
      e := oracle.event(calls);
      if ended {
        return ContextDone;
      }
      if e.ContextDone? {
        clock := if clock < deadline then deadline else clock;
      }
    }

    /** The select on the wait channels; none when the context ended. */
    method SelectWait(deadline: nat) returns (e: Option<WaitEvent>)
      modifies this`clock, this`calls, this`log
      ensures old(clock) <= clock <= if old(clock) < deadline then deadline else old(clock)
      ensures e.None? ==> deadline <= clock
      ensures Healthy(oracle) && old(clock) < deadline ==> e.Some? && Sound(e.value) && clock == old(clock)
      ensures calls == old(calls) + 1 && (e.Some? ==> e.value == oracle.wait(calls))
      ensures log == old(log) + [Waits]
    {
      var ended := Await(deadline);
      assert Healthy(oracle) ==> Answers(oracle, calls);
      e := if ended then None else Some(oracle.wait(calls));
    }

    /** The select on the output channel; none when the context ended. */
    method SelectOutput(deadline: nat) returns (e: Option<Copy>)
      modifies this`clock, this`calls, this`log
      ensures old(clock) <= clock <= if old(clock) < deadline then deadline else old(clock)
      ensures e.None? ==> deadline <= clock
      ensures Healthy(oracle) && old(clock) < deadline ==> e.Some? && e.value != CopyBroken && clock == old(clock)
      ensures calls == old(calls) + 1 && (e.Some? ==> e.value == oracle.copy(calls))
      ensures log == old(log) + [Waits]
    {
      var ended := Await(deadline);
      assert Healthy(oracle) ==> Answers(oracle, calls);
      e := if ended then None else Some(oracle.copy(calls));
    }
  }
}
