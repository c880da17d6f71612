// What each step of the job protocol does next, told by the row and the entry it looks
// at: which jobs are dropped, left alone, executed or announced, and which entries are
// replaced, kept or removed.
module StepFacts {
  import opened Base
  import opened Rows
  import opened JudgeStore
  import opened JudgeResult
  import opened Stream
  import opened Protocol
  import opened ProtocolSafety

  /** Stored tests that decode. */
  predicate Decodes(db: Db, s: Uuid)
    requires s in db.subs && db.subs[s].matchId in db.matches
    requires db.matches[db.subs[s].matchId].problem in db.problems
  {
    var problem := db.problems[db.matches[db.subs[s].matchId].problem];
    problem.wellFormed && problem.tests > 0
  }

  /** Where a worker stands after the claim of submission `s` through entry `e`. */
  ghost predicate LeadsTo(db: Db, s: Uuid, e: nat, now: nat, pc: WorkerPc) {
    if s == NIL then pc == Idle
    else if s !in db.subs then pc == Discarding(e)
    else if db.subs[s].matchId !in db.matches || db.matches[db.subs[s].matchId].problem !in db.problems then false
    else
      match db.subs[s].status
      case Running =>
        db.subs[s].lease.Some? && pc == if now < db.subs[s].lease.value then Discarding(e) else Idle
      case Completed =>
        if Decodes(db, s) then
          pc.Publishing? && TellsRow(db, s, pc.record) && pc == Publishing(e, pc.record, 0, false)
        else pc == Idle
      case Pending =>
        if Decodes(db, s) then
          && pc.Executing? && pc.entry == e && pc.claimed.sub == s && pc.claimed.source == db.subs[s].code
          && pc.claimed.language == db.subs[s].language
        else pc == Idle
  }

  /** `processJob` up to execution: malformed jobs, missing submissions and live attempts
      are about to be discarded, results announced, pending ones executed; the rest is
      left alone. The entry stays where it is. */
  lemma ClaimStepExactly(cfg: Config, st: State, w: nat, token: Uuid)
    requires ValidConfig(cfg) && SafetyInv(cfg, st) && w in st.workers && st.workers[w].Received?
    ensures var next := ClaimStep(cfg, st, w, token);
      var e, job := st.workers[w].entry, st.workers[w].job;
      if job.Malformed? then
        next == Some(st.(workers := st.workers[w := Discarding(e)]))
      else if token == NIL || token in st.tokens then
        next == None
      else
        && next.Some? && w in next.value.workers && next.value.workers == st.workers[w := next.value.workers[w]]
        && next.value.stream == st.stream && next.value.events == st.events
        && next.value.tokens == st.tokens + {token}
        && LeadsTo(st.db, job.sub, e, st.clock, next.value.workers[w])
  {
    hide SafetyInv, ClaimTx, JobsInv, StreamOk, PcsInv, MarksInv, ResultsInv, AcceptedInv, DbInv, LeadsTo, Announceable;
    SafetyParts(cfg, st);
    var job := st.workers[w].job;
    if job.JobFor? && token != NIL {
      ClaimLeads(cfg.maxAttempts, st.db, job.sub, st.workers[w].entry, token, cfg.attemptLease, st.clock);
    }
  }

  lemma ClaimLeads(max: nat, db: Db, s: Uuid, e: nat, token: Uuid, lease: nat, now: nat)
    requires DbInv(max, db) && token != NIL && lease > 0
    ensures LeadsTo(db, s, e, now, AfterClaim(e, ClaimTx(db, s, token, lease, now).1))
  {
    hide ClaimTx, DbInv, Announceable, ClaimFits, Owns;
    ClaimSucceedsIff(max, db, s, token, lease, now);
    if s in db.subs { RowJoins(max, db, s); }
    ClaimTells(max, db, s, token, lease, now);
    if s in db.subs && db.subs[s].status == Running {
      RunningClaims(max, db, s, token, lease, now);
    }
  }

  lemma RowJoins(max: nat, db: Db, s: Uuid)
    requires DbInv(max, db) && s in db.subs
    ensures db.subs[s].matchId in db.matches && db.matches[db.subs[s].matchId].problem in db.problems
  {
    assert SubOk(db, max, db.subs[s]) && MatchOk(db, db.matches[db.subs[s].matchId]);
  }

  lemma ClaimTells(max: nat, db: Db, s: Uuid, token: Uuid, lease: nat, now: nat)
    requires DbInv(max, db)
    ensures var res := ClaimTx(db, s, token, lease, now).1;
      && (res.AlreadyCompleted? ==> TellsRow(db, s, res.record) && Announceable(res.record))
      && (res.Acquired? ==> s in db.subs && res.claimed.sub == s && res.claimed.source == db.subs[s].code
                            && res.claimed.language == db.subs[s].language)
  {
    hide ClaimTx, Announceable, ClaimFits, Owns, RecordFits;
    ClaimMeaning(max, db, s, token, lease, now);
    var res := ClaimTx(db, s, token, lease, now).1;
    if res.AlreadyCompleted? {
      RowJoins(max, db, s);
      RebuiltFits(max, db, s, res.record);
      StoredRecordsAnnounce(max, db, res.record);
    }
    if res.Acquired? { AcquiredRow(db, s, token, lease, now); }
  }

  lemma AcquiredRow(db: Db, s: Uuid, token: Uuid, lease: nat, now: nat)
    requires ClaimTx(db, s, token, lease, now).1.Acquired?
    ensures s in db.subs
  {
  }

  /** A completion that applies is announced from its first recipient on; one that comes
      too late is dropped. The entry stays where it is. */
  lemma FinishStepExactly(cfg: Config, st: State, w: nat, result: Terminal)
    requires SafetyInv(cfg, st) && w in st.workers && st.workers[w].Executing?
    requires ValidTerminal(result, st.workers[w].claimed.tests)
    ensures var next := FinishStep(st, w, result);
      var e, c := st.workers[w].entry, st.workers[w].claimed;
      && next.Some? && w in next.value.workers && next.value.workers == st.workers[w := next.value.workers[w]]
      && next.value.stream == st.stream && next.value.events == st.events
      && c.sub in st.db.subs
      && if st.db.subs[c.sub].status == Running && st.db.subs[c.sub].token == Some(c.token) then
           && c.sub in next.value.returned && TellsRow(next.value.db, c.sub, next.value.returned[c.sub])
           && next.value.workers[w] == Publishing(e, next.value.returned[c.sub], 0, false)
         else
           next.value.workers[w] == Idle && next.value.db == st.db && next.value.returned == st.returned
  {
    hide SafetyInv, JobsInv, StreamOk, PcsInv, MarksInv, ResultsInv, AcceptedInv, DbInv, ValidTerminal, CompleteTx,
      Announceable, Owns, TellsRow, RecordFits;
    SafetyParts(cfg, st);
    WorkerPcFits(st, w);
    OwnsIff(st.db, st.workers[w].claimed);
    CompleteMeaning(cfg.maxAttempts, st.db, st.workers[w].claimed, result, st.clock);
    if CompleteTx(st.db, st.workers[w].claimed, result, st.clock).1.Applied? {
      AppliedAnnounces(cfg.maxAttempts, st.db, st.workers[w].claimed, result, st.clock);
    }
  }

  lemma OwnsIff(db: Db, c: Claimed)
    requires ClaimFits(db, c)
    ensures c.sub in db.subs
    ensures Owns(db.subs[c.sub], c) <==> db.subs[c.sub].status == Running && db.subs[c.sub].token == Some(c.token)
  {
  }

  lemma AppliedAnnounces(max: nat, db: Db, c: Claimed, r: Terminal, now: nat)
    requires DbInv(max, db) && ClaimFits(db, c) && ValidTerminal(r, c.tests) && CompleteTx(db, c, r, now).1.Applied?
    ensures Announceable(CompleteTx(db, c, r, now).1.record)
  {
    hide DbInv, ClaimFits, ValidTerminal, Announceable, RecordFits, CompleteTx, Evolves;
    FinishedRecordFits(max, db, c, r, now);
    CompleteKeeps(max, db, c, r, now);
    StoredRecordsAnnounce(max, CompleteTx(db, c, r, now).0, CompleteTx(db, c, r, now).1.record);
  }

  /** One publish call after the other, a failure notwithstanding; the entry is about to be
      discarded after the last one exactly if none failed. */
  lemma PublishStepExactly(st: State, w: nat, delivered: bool, ok: bool)
    requires w in st.workers && st.workers[w].Publishing? && |st.workers[w].record.players| == 2
    ensures var next := PublishStep(st, w, delivered, ok);
      var pc := st.workers[w];
      && (next.Some? <==> pc.next < 2 && (ok ==> delivered))
      && (next.Some? ==>
            && next.value == st.(events := next.value.events, workers := next.value.workers)
            && next.value.events
               == (if delivered then st.events + {EventFor(pc.record, pc.record.players[pc.next])} else st.events)
            && next.value.workers == st.workers[w :=
                 if pc.next == 0 then Publishing(pc.entry, pc.record, 1, pc.failed || !ok)
                 else if pc.failed || !ok then Idle
                 else Discarding(pc.entry)])
  {
    hide EventFor;
  }

  /** `handleReclaimedJob`: malformed entries and those of missing submissions are about to
      be removed, running ones stay, all others are about to be replaced. */
  lemma CheckStepExactly(st: State, r: nat)
    requires r in st.reapers && st.reapers[r].Checking?
    ensures var e, job := st.reapers[r].entry, st.reapers[r].job;
      CheckStep(st, r) == Some(st.(reapers := st.reapers[r :=
        if job == Malformed || job.sub !in st.db.subs then Removing(e)
        else if st.db.subs[job.sub].status == Running then Free
        else Replacing(e, job.sub)]))
  {
  }

  /** An entry changes hands only after `streamMinIdle` without delivery, and keeps its job. */
  lemma SweepStepExactly(cfg: Config, st: State, r: nat, e: nat)
    requires r !in st.reapers || st.reapers[r] == Free
    ensures var next := SweepStep(cfg, st, r, e);
      && (next.Some? <==> e in st.stream.pel && e in st.stream.entries
                          && st.stream.pel[e].since + cfg.streamMinIdle <= st.clock)
      && (next.Some? ==>
            && next.value.stream
               == st.stream.(pel := st.stream.pel[e := Delivery(ReaperConsumer(r), st.clock)])
            && next.value.reapers == st.reapers[r := Checking(e, st.stream.entries[e])])
  {
  }

  /** A worker takes the oldest undelivered entry, and acknowledging removes it. */
  lemma EntryStepsExactly(st: State, w: nat)
    requires StreamOk(st.stream)
    ensures w !in st.workers || st.workers[w] == Idle ==>
      var next := ReadStep(st, w);
      && (next.Some? <==> |st.stream.undelivered| > 0)
      && (next.Some? ==>
            var e := st.stream.undelivered[0];
            && next.value.workers == st.workers[w := Received(e, st.stream.entries[e])]
            && next.value.stream == st.stream.(undelivered := st.stream.undelivered[1..],
                                               pel := st.stream.pel[e := Delivery(JudgeConsumer(w), st.clock)]))
    ensures w in st.workers && st.workers[w].Discarding? ==>
      var next, e := AckStep(st, w), st.workers[w].entry;
      && next.Some? && next.value.workers == st.workers[w := Idle]
      && next.value.stream == if e in st.stream.pel
                              then st.stream.(pel := st.stream.pel - {e}, entries := st.stream.entries - {e})
                              else st.stream
  {
  }

  /** A replacement is appended, marked if its row is still pending, and only then does the
      old entry go. */
  lemma ReplacementExactly(st: State, r: nat)
    requires r in st.reapers && StreamOk(st.stream)
    ensures st.reapers[r].Replacing? ==>
      var next, e, s := ReplaceStep(st, r), st.reapers[r].entry, st.reapers[r].sub;
      && next.Some? && next.value.reapers == st.reapers[r := Remarking(e, s)] && next.value.db == st.db
      && next.value.stream.entries == st.stream.entries[st.stream.next := JobFor(s)]
      && next.value.stream.undelivered == st.stream.undelivered + [st.stream.next]
      && next.value.stream.pel == st.stream.pel
    ensures st.reapers[r].Remarking? ==>
      var next, e, s := RemarkStep(st, r), st.reapers[r].entry, st.reapers[r].sub;
      && next.Some? && next.value.reapers == st.reapers[r := Removing(e)] && next.value.stream == st.stream
      && next.value.db == if s in st.db.subs && st.db.subs[s].status == Pending
                          then st.db.(subs := st.db.subs[s := st.db.subs[s].(enqueued := Some(st.clock))])
                          else st.db
    ensures st.reapers[r].Removing? ==>
      var next, e := RemoveStep(st, r), st.reapers[r].entry;
      && next.Some? && next.value.reapers == st.reapers[r := Free] && next.value.db == st.db
      && next.value.stream == if e in st.stream.pel
                              then st.stream.(pel := st.stream.pel - {e}, entries := st.stream.entries - {e})
                              else st.stream
  {
  }

  /** A dispatcher appends the job of any known submission and marks the row afterwards. */
  lemma DispatchStepsExactly(st: State, d: nat, s: Uuid)
    ensures d !in st.dispatchers || st.dispatchers[d] == Ready ==>
      var next := EnqueueStep(st, d, s);
      && (next.Some? <==> s in st.db.subs)
      && (next.Some? ==>
            && next.value.dispatchers == st.dispatchers[d := Enqueued(s)] && next.value.db == st.db
            && next.value.stream.entries == st.stream.entries[st.stream.next := JobFor(s)]
            && next.value.stream.undelivered == st.stream.undelivered + [st.stream.next])
    ensures d in st.dispatchers && st.dispatchers[d] == Enqueued(s) ==>
      var next := MarkStep(st, d);
      && next.Some? && next.value.dispatchers == st.dispatchers[d := Ready] && next.value.stream == st.stream
      && next.value.db == if s in st.db.subs && st.db.subs[s].status == Pending
                          then st.db.(subs := st.db.subs[s := st.db.subs[s].(enqueued := Some(st.clock))])
                          else st.db
  {
  }
}
