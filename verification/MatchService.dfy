// internal/match/service.go as the object it is: one `step` at a time over a
// `pending` list, with every call able to fail before or after taking effect. Every
// method does to queue, tables and pending list what its step of `Matchmaker` does.
module MatchService {
  import opened Base
  import opened Rows
  import opened SortedSet
  import opened MatchQueue
  import opened RedisScripts
  import opened Matchmaker
  import MatchCreation
  import PopPair
  import QueueRuns

  datatype Delay = AtOnce | AfterPoll | AfterRetry

  /** How the calls of one step fare. */
  datatype Weather = Weather(restore: Fault, pop: Fault, create: Fault, requeue: Fault, published: bool)

  /** What `step` gives `create`. */
  datatype Draft = Draft(duration: nat, now: nat, newId: Uuid)

  /** What follows a successful pop. */
  function Placed(st: State, w: Weather, d: Draft): Option<State> {
    match CreateStep(st, w.create, d.duration, d.now, d.newId)
    case Some(made) => if made.pc.Waiting? then Some(made) else ReturnStep(made, w.requeue)
    case None => None
  }

  /** An undisturbed `step` from beginning to end. */
  function Stepped(st: State, w: Weather, limit: nat, d: Draft): Option<State> {
    match RestoreStep(st, w.restore)
    case None => None
    case Some(restored) =>
      if restored.pc.Waiting? then Some(restored)
      else match PopStep(restored, limit, w.pop)
        case None => None
        case Some(popped) => if popped.pc.Waiting? then Some(popped) else Placed(popped, w, d)
  }

  /** The own actions of `Matchmaker` that it consists of. */
  ghost function StepActions(st: State, w: Weather, limit: nat, d: Draft): seq<Action>
    requires Stepped(st, w, limit, d).Some?
  {
    var restored := RestoreStep(st, w.restore).value;
    if restored.pc.Waiting? then [Restore(w.restore)]
    else
      var popped := PopStep(restored, limit, w.pop).value;
      if popped.pc.Waiting? then [Restore(w.restore), Pop(limit, w.pop)]
      else [Restore(w.restore), Pop(limit, w.pop)] + PlaceActions(popped, w, d)
  }

  ghost function PlaceActions(st: State, w: Weather, d: Draft): seq<Action>
    requires Placed(st, w, d).Some?
  {
    var create := Create(w.create, d.duration, d.now, d.newId);
    if CreateStep(st, w.create, d.duration, d.now, d.newId).value.pc.Waiting? then [create]
    else [create, Return(w.requeue)]
  }

  lemma RunOne(st: State, a: Action)
    ensures Run(st, [a]) == Step(st, a)
  {
    assert [a][1..] == [];
    hide Step;
  }

  lemma RunCons(st: State, a: Action, rest: seq<Action>)
    ensures Run(st, [a] + rest) == match Step(st, a) case None => None case Some(next) => Run(next, rest)
  {
    assert ([a] + rest)[1..] == rest;
    hide Step;
  }

  lemma PlacedIsRun(st: State, w: Weather, d: Draft)
    requires Placed(st, w, d).Some?
    ensures Run(st, PlaceActions(st, w, d)) == Placed(st, w, d)
  {
    var create := Create(w.create, d.duration, d.now, d.newId);
    var made := CreateStep(st, w.create, d.duration, d.now, d.newId).value;
    RunOne(st, create);
    RunOne(made, Return(w.requeue));
    RunCons(st, create, [Return(w.requeue)]);
    hide CreateStep, ReturnStep, Run;
    assert [create, Return(w.requeue)] == [create] + [Return(w.requeue)];
  }

  /** So whatever holds of every run of `Matchmaker` holds of every run of the object. */
  lemma SteppedIsRun(st: State, w: Weather, limit: nat, d: Draft)
    requires Stepped(st, w, limit, d).Some?
    ensures Run(st, StepActions(st, w, limit, d)) == Stepped(st, w, limit, d)
    ensures forall a | a in StepActions(st, w, limit, d) :: a.Restore? || a.Pop? || a.Create? || a.Return?
  {
    var restore, pop := Restore(w.restore), Pop(limit, w.pop);
    var restored := RestoreStep(st, w.restore).value;
    RunOne(st, restore);
    if !restored.pc.Waiting? {
      var popped := PopStep(restored, limit, w.pop).value;
      RunOne(restored, pop);
      RunCons(st, restore, [pop]);
      if !popped.pc.Waiting? {
        var place := PlaceActions(popped, w, d);
        PlacedIsRun(popped, w, d);
        RunCons(restored, pop, place);
        RunCons(st, restore, [pop] + place);
        assert [restore, pop] + place == [restore] + ([pop] + place);
      } else {
        assert [restore, pop] == [restore] + [pop];
      }
    }
    hide RestoreStep, PopStep, CreateStep, Placed, Run;
  }

  /** How long `run` waits before the next step. */
  function PlaceDelay(db: Db, pair: seq<Slot>, w: Weather, d: Draft): Delay
    requires |pair| == 2
  {
    var res := MatchCreation.CreateTx(db, pair[0].member.user, pair[1].member.user, d.duration, d.now, d.newId).1;
    if w.create != NoFault || res.CreateError? then AfterRetry
    else if res.Created? then (if w.published then AtOnce else AfterRetry)
    else if Eligible(pair, res.missing, res.claims).0 == [] || w.requeue == NoFault then AtOnce
    else AfterRetry
  }

  function StepDelay(st: State, w: Weather, limit: nat, d: Draft): Delay {
    match RestoreStep(st, w.restore)
    case None => AfterRetry
    case Some(restored) =>
      if restored.pc.Waiting? then AfterRetry
      else match PopStep(restored, limit, w.pop)
        case None => AfterRetry
        case Some(popped) =>
          if w.pop != NoFault then AfterRetry
          else if popped.pc.Holding? && |popped.pc.pair| == 2 then PlaceDelay(popped.db, popped.pc.pair, w, d)
          else AfterPoll
  }

  /** After a pop: at once if the match was announced, or if those who cannot play are
      dropped and nobody is left waiting for a requeue; otherwise after the retry interval. */
  lemma PlaceDelayMeaning(st: State, pair: seq<Slot>, w: Weather, d: Draft)
    requires st.pc == Holding(pair) && |pair| == 2 && st.pending == [] && d.newId !in st.db.matches
    ensures Placed(st, w, d).Some?
    ensures var delay := PlaceDelay(st.db, pair, w, d);
      var res := MatchCreation.CreateTx(st.db, pair[0].member.user, pair[1].member.user, d.duration, d.now, d.newId).1;
      && (delay == AtOnce <==>
            && w.create == NoFault
            && ((res.Created? && w.published) || (res.Ineligible? && Placed(st, w, d).value.pending == [])))
      && (delay == AfterRetry <==> delay != AtOnce)
  {
    hide MatchCreation.CreateTx, Eligible, QueueRuns.Step;
  }

  /** A failing call is followed by the retry interval, an empty pop by the poll interval,
      and a pair by what `PlaceDelay` says. */
  lemma DelayMeaning(st: State, w: Weather, limit: nat, d: Draft)
    requires Inv(st) && st.pc.Waiting? && limit > 0
    ensures var restored := st.pending == [] || w.restore == NoFault;
      var q := if st.pending == [] then st.queue.q else RequeueTx(st.queue.q, st.pending, st.alive).0;
      var pair := PopTx(q, limit, st.alive).1;
      var delay := StepDelay(st, w, limit, d);
      && (!restored || w.pop != NoFault ==> delay == AfterRetry)
      && (restored && w.pop == NoFault && pair == [] ==> delay == AfterPoll)
      && (restored && w.pop == NoFault && pair != [] ==>
            && |pair| == 2 && pair[0].raw.Encoded? && pair[1].raw.Encoded?
            && delay == PlaceDelay(st.db, [QueueRuns.SlotOf(pair[0]), QueueRuns.SlotOf(pair[1])], w, d))
  {
    hide QueueRuns.Inv, PopTx, RequeueTx, ClaimsExact, PlaceDelay, Known, Latest;
    var restored := RestoreStep(st, w.restore).value;
    RestoreKeeps(st, w.restore, restored);
    PoppedIsKnown(restored.queue, limit, restored.alive);
    PoppedIsKnown(st.queue, limit, st.alive);
    if !restored.pc.Waiting? {
      var pair := PopTx(restored.queue.q, limit, restored.alive).1;
      if pair != [] {
        assert Slots(pair) == [QueueRuns.SlotOf(pair[0]), QueueRuns.SlotOf(pair[1])];
      }
    }
  }

  lemma {:induction false} EligibleSnoc(pair: seq<Slot>, s: Slot, missing: seq<Uuid>, claims: seq<(Uuid, Uuid)>)
    ensures var (back, out) := Eligible(pair, missing, claims);
      Eligible(pair + [s], missing, claims)
      == if Barred(s, missing, claims) then (back, out + [s]) else (back + [s], out)
  {
    if pair == [] {
      assert pair + [s] == [s] && [s][1..] == [] && [s] + [] == [s] == [] + [s];
      assert Eligible([], missing, claims) == ([], []);
      assert Eligible([s], missing, claims) == if Barred(s, missing, claims) then ([], [s]) else ([s], []);
    } else {
      assert (pair + [s])[1..] == pair[1..] + [s] && (pair + [s])[0] == pair[0];
      EligibleSnoc(pair[1..], s, missing, claims);
      var (back, out) := Eligible(pair[1..], missing, claims);
      assert [pair[0]] + (out + [s]) == ([pair[0]] + out) + [s];
      assert [pair[0]] + (back + [s]) == ([pair[0]] + back) + [s];
      hide Barred;
    }
  }

  /** A pop that took effect, as the object goes through it. */
  lemma PopCall(before: State, limit: nat, fault: Fault, slots: seq<Slot>)
    requires Inv(before) && before.pc.Ready? && limit > 0 && fault != FailsBefore
    requires forall e | e in PopTx(before.queue.q, limit, before.alive).1 :: e.raw.Encoded?
    requires slots == Slots(PopTx(before.queue.q, limit, before.alive).1)
    ensures |slots| == 0 || |slots| == 2
    ensures var pair := if fault == NoFault then slots else [];
      var after := before.(queue := QueueRuns.Step(before.queue, QueueRuns.Pop(limit, before.alive)),
                           pc := if pair == [] then Waiting else Holding(pair),
                           taken := TakenWith(before.taken, slots));
      && PopStep(before, limit, fault) == Some(after) && Known(after.queue, pair) && Latest(after.taken, pair)
      && Inv(after.(alive := {}, pc := Waiting)) && after.queue.q == PopTx(before.queue.q, limit, before.alive).0
  {
    PopEnabled(before, limit, fault);
    hide QueueRuns.Inv, QueueRuns.Step, PopTx, PopStep, ClaimsExact, Slots, Known, Latest, Inv, TakenWith;
    var after := PopStep(before, limit, fault).value;
    PopKeeps(before, limit, fault, after);
    PopShape(before, limit, fault, after);
    BetweenSteps(after);
    QueueAfterPop(before.queue, limit, before.alive);
  }

  lemma QueueAfterPop(queue: QueueRuns.State, limit: nat, alive: Presence)
    ensures QueueRuns.Step(queue, QueueRuns.Pop(limit, alive)).q == PopTx(queue.q, limit, alive).0
  {
    hide PopTx;
  }

  /** The object about to pop. */
  lemma AboutToPop(st: State, limit: nat, alive: Presence)
    requires Inv(st) && st.pc.Waiting? && st.pending == [] && limit > 0
    ensures var ready := st.(alive := alive, pc := Ready);
      Inv(ready) && PopStep(ready, limit, FailsBefore) == Some(st.(alive := alive)) && QueueRuns.Inv(st.queue)
    ensures Known(st.queue, []) && Latest(st.taken, [])
  {
    EmptyHands(st.queue, st.taken);
    hide QueueRuns.Inv, QueueRuns.Step, PopTx, ClaimsExact, Known, Latest;
  }

  lemma PopEnabled(before: State, limit: nat, fault: Fault)
    requires Inv(before) && before.pc.Ready? && limit > 0
    requires forall e | e in PopTx(before.queue.q, limit, before.alive).1 :: e.raw.Encoded?
    ensures PopStep(before, limit, fault).Some? && QueueRuns.Inv(before.queue) && before.pending == []
  {
    hide QueueRuns.Inv, QueueRuns.Step, PopTx, ClaimsExact, Slots, Known, Latest;
  }

  /** What the object keeps of a state while its program counter moves. */
  lemma BetweenSteps(st: State)
    requires Inv(st)
    ensures Inv(st.(alive := {}, pc := Waiting))
    ensures Known(st.queue, Held(st.pc)) && Latest(st.taken, Held(st.pc))
  {
    EmptyHands(st.queue, st.taken);
    hide QueueRuns.Inv, ClaimsExact, Known, Latest;
  }

  /** A requeue attempt of `requeueOrRetain`, as the object goes through it. */
  lemma RequeueCall(st: State, entries: seq<Slot>, fault: Fault, alive: Presence)
    requires Inv(st) && st.pc.Waiting? && st.pending == [] && Known(st.queue, entries) && Latest(st.taken, entries)
    ensures var after := st.(queue := RequeuedState(st.queue, entries, fault, alive),
                             pending := if fault == NoFault then [] else entries);
      && ReturnStep(st.(alive := alive, pc := Returning(entries)), fault)
         == Some(if entries == [] then st.(alive := alive) else after.(alive := alive))
      && (entries != [] ==> Inv(after))
  {
    var from := st.(alive := alive, pc := Returning(entries));
    EmptyHands(st.queue, st.taken);
    hide QueueRuns.Inv, QueueRuns.Step, ClaimsExact, Known, Latest;
    assert [] + entries == entries;
    assert Inv(from);
    ReturnKeeps(from, fault, ReturnStep(from, fault).value);
  }

  /** A create call, as the object goes through it. */
  lemma CreateCall(st: State, pair: seq<Slot>, w: Weather, d: Draft, alive: Presence)
    requires Inv(st) && st.pc.Waiting? && st.pending == [] && |pair| == 2 && Known(st.queue, pair)
    requires Latest(st.taken, pair)
    requires d.newId !in st.db.matches
    ensures
      var (db', res) :=
        MatchCreation.CreateTx(st.db, pair[0].member.user, pair[1].member.user, d.duration, d.now, d.newId);
      var from := st.(alive := alive, pc := Holding(pair));
      var after := st.(db := if w.create == FailsBefore then st.db else db');
      && Inv(after)
      && Placed(from, w, d) ==
         if w.create == NoFault && res.Created? then Some(after.(alive := alive))
         else
           var held :=
             if w.create == NoFault && res.Ineligible? then Eligible(pair, res.missing, res.claims).0 else pair;
           ReturnStep(after.(alive := alive, pc := Returning(held)), w.requeue)
  {
    hide QueueRuns.Inv, MatchCreation.CreateTx, ClaimsExact, Known, Latest, Eligible, ReturnStep;
    CreateGrows(st.db, pair[0].member.user, pair[1].member.user, d.duration, d.now, d.newId);
    CreateShape(st.db, pair[0].member.user, pair[1].member.user, d.duration, d.now, d.newId);
  }

  function RequeuedState(queue: QueueRuns.State, entries: seq<Slot>, fault: Fault, alive: Presence): QueueRuns.State {
    if fault == FailsBefore then queue else QueueRuns.Step(queue, QueueRuns.Requeue(entries, alive))
  }

  function Requeued(q: Queue, entries: seq<Slot>, fault: Fault, alive: Presence): Queue {
    if fault == FailsBefore then q else RequeueTx(q, entries, alive).0
  }

  class Service {
    const store: QueueStore
    var pending: seq<Slot>
    var db: Db
    ghost var history: QueueRuns.State       // scores issued and entries popped so far
    ghost var taken: map<Uuid, Slot>         // what was last popped here for each user

    /** The state of `Matchmaker` that the object is in, its program counter being `pc`. */
    ghost function Model(alive: Presence, pc: Pc): State
      reads this
    {
      State(history, db, alive, pending, pc, taken)
    }

    /** The queue is one that the scripts can reach; pending entries were popped from it. */
    ghost predicate Valid()
      reads this, store
    {
      && store.Valid() && history.q == store.State()
      && Inv(Model({}, Waiting))
    }

    constructor (store: QueueStore, db: Db)
      requires store.State() == EmptyQueue && store.Valid() && ClaimsExact(db)
      ensures Valid() && this.store == store && this.db == db && pending == [] && taken == map[]
    {
      this.store, this.db, pending, taken := store, db, [], map[];
      history := QueueRuns.State(store.State(), map[], {});
    }

    method Requeue(entries: seq<Slot>, fault: Fault, alive: Presence) returns (ok: bool)
      requires Valid() && Known(history, entries)
      modifies this`history, store
      ensures Valid()
      ensures ok == (fault == NoFault)
      ensures store.State() == Requeued(old(store.State()), entries, fault, alive)
      ensures history == RequeuedState(old(history), entries, fault, alive)
    {
      if fault != FailsBefore {
        QueueLater(history, QueueRuns.Requeue(entries, alive));
        history := QueueRuns.Step(history, QueueRuns.Requeue(entries, alive));
        var _ := store.Requeue(entries, alive);
        PopPair.DistinctFromRanked(store.zset);
      }
      ok := fault == NoFault;
    }

    method RestorePending(fault: Fault, alive: Presence) returns (ok: bool)
      requires Valid()
      modifies this`pending, this`history, store
      ensures Valid()
      ensures ok == (old(pending) == [] || fault == NoFault)
      ensures pending == if ok then [] else old(pending)
      ensures store.State() == if old(pending) == [] then old(store.State())
                               else Requeued(old(store.State()), old(pending), fault, alive)
      ensures RestoreStep(old(Model(alive, Waiting)), fault) == Some(Model(alive, if ok then Ready else Waiting))
    {
      if |pending| == 0 {
        return true;
      }
      ok := Requeue(pending, fault, alive);
      if ok {
        pending := [];
      }
    }

    method RequeueOrRetain(entries: seq<Slot>, fault: Fault, alive: Presence) returns (ok: bool)
      requires Valid() && pending == [] && Known(history, entries) && Latest(taken, entries)
      modifies this`pending, this`history, store
      ensures Valid()
      ensures ok == (entries == [] || fault == NoFault)
      ensures pending == if ok then [] else entries
      ensures store.State() == if entries == [] then old(store.State())
                               else Requeued(old(store.State()), entries, fault, alive)
      ensures ReturnStep(old(Model(alive, Returning(entries))), fault) == Some(Model(alive, Waiting))
    {
      hide QueueRuns.Inv, QueueRuns.Step, Requeued, RequeuedState, ReturnStep, ClaimsExact, Known, Latest, Inv;
      RequeueCall(Model({}, Waiting), entries, fault, alive);
      if |entries| == 0 {
        return true;
      }
      ok := Requeue(entries, fault, alive);
      if !ok {
        assert pending + entries == entries;
        pending := pending + entries;
      }
    }

    /** Drops who cannot play, requeues or retains the rest. */
    method HandleIneligiblePlayers(pair: seq<Slot>, missing: seq<Uuid>, claims: seq<(Uuid, Uuid)>,
                                   fault: Fault, alive: Presence)
      returns (ok: bool, eligible: seq<Slot>)
      requires Valid() && pending == [] && |pair| == 2 && Known(history, pair) && Latest(taken, pair)
      modifies this`pending, this`history, store
      ensures Valid()
      ensures eligible == Eligible(pair, missing, claims).0
      ensures ok == (eligible == [] || fault == NoFault)
      ensures pending == if ok then [] else eligible
      ensures store.State() == if eligible == [] then old(store.State())
                               else Requeued(old(store.State()), eligible, fault, alive)
      ensures ReturnStep(old(Model(alive, Returning(eligible))), fault) == Some(Model(alive, Waiting))
    {
      eligible := [];
      for i := 0 to |pair|
        invariant eligible == Eligible(pair[..i], missing, claims).0
        invariant Valid() && pending == [] && store.State() == old(store.State())
        invariant Model(alive, Waiting) == old(Model(alive, Waiting))
      {
        EligibleSnoc(pair[..i], pair[i], missing, claims);
        assert pair[..i + 1] == pair[..i] + [pair[i]];
        var banned := pair[i].member.user in missing;
        if !banned {
          banned := HasClaim(claims, pair[i].member.user);
        }
        if !banned {
          eligible := eligible + [pair[i]];
        }
      }
      assert pair[..|pair|] == pair;
      EligibleOfTwo(pair, missing, claims);
      PartKnown(history, pair, eligible);
      assert pair[0] in pair && pair[1] in pair;
      ok := RequeueOrRetain(eligible, fault, alive);
    }

    /** The Go side of PopPair: the decoded pair, or none. */
    method TakePair(fault: Fault, alive: Presence) returns (err: bool, pair: seq<Slot>)
      requires Valid() && pending == []
      modifies this`history, this`taken, store
      ensures Valid() && Known(history, pair) && Latest(taken, pair)
      ensures err == (fault != NoFault)
      ensures store.State() == if fault == FailsBefore then old(store.State())
                               else PopTx(old(store.State()), store.scanLimit, alive).0
      ensures |pair| == 0 || (|pair| == 2 && !err)
      ensures PopStep(old(Model(alive, Ready)), store.scanLimit, fault)
              == Some(Model(alive, if pair == [] then Waiting else Holding(pair)))
    {
      hide QueueRuns.Inv, QueueRuns.Step, PopTx, PopStep, ClaimsExact, Slots, Known, Latest, Inv, TakenWith;
      pair := [];
      err := fault != NoFault;
      AboutToPop(Model({}, Waiting), store.scanLimit, alive);
      if fault != FailsBefore {
        PoppedIsKnown(history, store.scanLimit, alive);
        ghost var before := Model(alive, Ready);
        var entries := store.PopPair(alive);
        var slots := DecodeAll(entries);
        PopCall(before, store.scanLimit, fault, slots);
        history := QueueRuns.Step(history, QueueRuns.Pop(store.scanLimit, alive));
        taken := TakenWith(taken, slots);
        if !err {
          pair := slots;
        }
      }
    }

    /** What follows a successful pop: create, and on failure drop, requeue or retain. */
    method Place(pair: seq<Slot>, w: Weather, alive: Presence, d: Draft) returns (delay: Delay)
      requires Valid() && pending == [] && |pair| == 2 && Known(history, pair) && Latest(taken, pair)
      requires d.newId !in db.matches
      modifies this`pending, this`db, this`history, store
      ensures Valid()
      ensures Placed(old(Model(alive, Holding(pair))), w, d) == Some(Model(alive, Waiting))
      ensures delay == PlaceDelay(old(db), pair, w, d)
      ensures delay == AtOnce ==> pending == []
    {
      hide QueueRuns.Inv, Requeued, Eligible, Barred, MatchCreation.CreateTx, ClaimsExact, Known, Latest, Inv,
        Placed, ReturnStep;
      CreateCall(Model({}, Waiting), pair, w, d, alive);
      var (db', res) :=
        MatchCreation.CreateTx(db, pair[0].member.user, pair[1].member.user, d.duration, d.now, d.newId);
      if w.create != FailsBefore {
        db := db';
      }
      if w.create == NoFault && res.Created? {
        delay := if w.published then AtOnce else AfterRetry;
      } else if w.create == NoFault && res.Ineligible? {
        var ok, _ := HandleIneligiblePlayers(pair, res.missing, res.claims, w.requeue, alive);
        delay := if ok then AtOnce else AfterRetry;
      } else {
        var _ := RequeueOrRetain(pair, w.requeue, alive);
        delay := AfterRetry;
      }
    }

    /** `step`: queue, tables, pending list and delay are those of the model's step. */
    method Step(w: Weather, alive: Presence, d: Draft) returns (delay: Delay)
      requires Valid() && d.newId !in db.matches
      modifies this, store
      ensures Valid() && |pending| <= 2
      ensures var end := Stepped(old(Model(alive, Waiting)), w, store.scanLimit, d);
        && end == Some(Model(alive, Waiting))
        && store.State() == end.value.queue.q && db == end.value.db && pending == end.value.pending
      ensures delay == StepDelay(old(Model(alive, Waiting)), w, store.scanLimit, d)
      ensures delay == AtOnce ==> pending == []
    {
      hide QueueRuns.Inv, PopTx, Requeued, Placed, PlaceDelay, RestoreStep, PopStep, ClaimsExact;
      var ok := RestorePending(w.restore, alive);
      if !ok {
        return AfterRetry;
      }
      var err, pair := TakePair(w.pop, alive);
      if err {
        return AfterRetry;
      }
      if |pair| == 0 {
        return AfterPoll;
      }
      delay := Place(pair, w, alive, d);
    }
  }

  method HasClaim(claims: seq<(Uuid, Uuid)>, user: Uuid) returns (found: bool)
    ensures found <==> exists c :: c in claims && c.0 == user
  {
    for i := 0 to |claims|
      invariant forall c | c in claims[..i] :: c.0 != user
    {
      if claims[i].0 == user {
        return true;
      }
    }
    return false;
  }

  method DecodeAll(entries: seq<Entry>) returns (slots: seq<Slot>)
    requires forall e | e in entries :: e.raw.Encoded?
    ensures slots == Slots(entries)
  {
    slots := [];
    for i := 0 to |entries|
      invariant slots == Slots(entries)[..i]
    {
      slots := slots + [Slot(entries[i].raw.member, entries[i].score)];
    }
  }
}
