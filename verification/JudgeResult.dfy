// internal/judge/result.go: from an execution outcome to the stored result, and
// from a finished submission to the two events that announce it.
module JudgeResult {
  import opened Base
  import opened Rows
  import opened JudgeStore

  datatype OutcomeKind =
    | OutcomePass | OutcomeWrongAnswer | OutcomeCompileError | OutcomeRuntimeError | OutcomeOutputLimit | OutcomeTimeout

  datatype Outcome = Outcome(kind: OutcomeKind, testsPassed: nat)

  function Mapped(o: Outcome): Terminal {
    match o.kind
    case OutcomePass => Terminal(VPass, None, o.testsPassed)
    case OutcomeWrongAnswer => Terminal(VFail, Some(WrongAnswer), o.testsPassed)
    case OutcomeCompileError => Terminal(VError, Some(CompileError), o.testsPassed)
    case OutcomeRuntimeError => Terminal(VError, Some(RuntimeError), o.testsPassed)
    case OutcomeOutputLimit => Terminal(VError, Some(OutputLimit), o.testsPassed)
    case OutcomeTimeout => Terminal(VTimeout, None, o.testsPassed)
  }

  /** terminalResultFromOutcome. */
  function TerminalOf(o: Outcome, total: nat): Option<Terminal> {
    if ValidTerminal(Mapped(o), total) then Some(Mapped(o)) else None
  }

  /** Refused outcomes are exactly those with too many passed tests, or a pass
      that did not pass them all; what the others are stored as. */
  lemma TerminalMeaning(o: Outcome, total: nat)
    ensures TerminalOf(o, total).Some?
      <==> o.testsPassed <= total && (o.kind == OutcomePass ==> o.testsPassed == total)
    ensures TerminalOf(o, total).Some? ==> StoredAs(o, TerminalOf(o, total).value)
    ensures forall o' | Mapped(o') == Mapped(o) :: o' == o
  {
  }

  /** The verdict, failure kind and passed tests that stand for an outcome. */
  ghost predicate StoredAs(o: Outcome, t: Terminal) {
    && (o.kind == OutcomePass ==> t.verdict == VPass && t.failure == None)
    && (o.kind == OutcomeWrongAnswer ==> t.verdict == VFail && t.failure == Some(WrongAnswer))
    && (o.kind == OutcomeCompileError ==> t.verdict == VError && t.failure == Some(CompileError))
    && (o.kind == OutcomeRuntimeError ==> t.verdict == VError && t.failure == Some(RuntimeError))
    && (o.kind == OutcomeOutputLimit ==> t.verdict == VError && t.failure == Some(OutputLimit))
    && (o.kind == OutcomeTimeout ==> t.verdict == VTimeout && t.failure == None)
    && t.passed == o.testsPassed
  }

  datatype EventKind = SubmissionResult | WinnerResult
  datatype Placing = Undecided | Won | Lost

  /** One result event; its event id is the stable hash of `EventId`. */
  datatype Event = Event(recipient: Uuid, kind: EventKind, record: Record, outcome: Placing)

  function EventId(e: Event): (EventKind, Uuid, Uuid) {
    (e.kind, e.record.sub, e.recipient)
  }

  predicate Announceable(r: Record) {
    && r.sub != NIL && r.matchId != NIL && r.player != NIL
    && 0 < r.total && r.passed <= r.total
    && |r.players| == 2 && r.players[0] != NIL && r.players[1] != NIL && r.players[0] != r.players[1]
    && r.player in r.players
    && (r.winner.Some? ==> r.winner.value in r.players)
  }

  function EventFor(r: Record, recipient: Uuid): Event {
    if r.winner.None? then Event(recipient, SubmissionResult, r, Undecided)
    else Event(recipient, WinnerResult, r, if recipient == r.winner.value then Won else Lost)
  }

  /** buildResultEvents: one event per player in slot order, or an error. */
  function BuildEvents(r: Record): Option<seq<Event>> {
    if Announceable(r) then Some([EventFor(r, r.players[0]), EventFor(r, r.players[1])]) else None
  }

  /** The events of a record are refused exactly if it names nobody, counts wrongly, or
      its players or winner do not fit it. */
  lemma EventsRefused(r: Record)
    ensures BuildEvents(r).None?
      <==> || r.sub == NIL || r.matchId == NIL || r.player == NIL || r.total == 0 || r.passed > r.total
           || |r.players| != 2 || NIL in r.players || r.players[0] == r.players[1] || r.player !in r.players
           || (r.winner.Some? && r.winner.value !in r.players)
  {
  }

  /** What a stored result still promises about a record made from it earlier. */
  ghost predicate RecordFits(db: Db, r: Record) {
    && r.sub in db.subs && r.matchId in db.matches
    && var row := db.subs[r.sub];
       var game := db.matches[r.matchId];
    && row.status == Completed && row.verdict == Some(r.verdict) && row.failure == r.failure && row.passed == r.passed
    && row.matchId == r.matchId && row.player == r.player && row.request == r.request
    && game.players == r.players
    && game.problem in db.problems && DecodeTests(db.problems[game.problem]) == Some(r.total)
    && (r.winner.Some? ==> game.status == Finished && game.winner == r.winner)
    && (r.verdict == VPass ==> r.winner.Some?)
  }

  /** A record of the tables always builds, and crowns exactly the stored winner. */
  lemma StoredRecordsAnnounce(max: nat, db: Db, r: Record)
    requires DbInv(max, db) && RecordFits(db, r)
    ensures Announceable(r)
    ensures BuildEvents(r).Some?
    ensures var events := BuildEvents(r).value;
      && |events| == 2 && EventId(events[0]) != EventId(events[1])
      && (forall i | 0 <= i < 2 :: events[i].recipient == db.matches[r.matchId].players[i] && events[i].record == r)
      && (forall i | 0 <= i < 2 && r.winner.Some? ::
            events[i].outcome == Won <==> db.matches[r.matchId].winner == Some(events[i].recipient))
      && (forall i | 0 <= i < 2 && r.winner.Some? :: events[i].kind == WinnerResult && events[i].outcome != Undecided)
      && (forall i | 0 <= i < 2 && r.winner.None? ::
            events[i].kind == SubmissionResult && events[i].outcome == Undecided)
  {
    assert SubOk(db, max, db.subs[r.sub]) && MatchOk(db, db.matches[r.matchId]);
  }

  /** A claim of a completed row rebuilds a record that fits. */
  lemma RebuiltFits(max: nat, db: Db, s: Uuid, r: Record)
    requires DbInv(max, db) && s in db.subs && db.subs[s].status == Completed && db.subs[s].verdict.Some?
    requires db.subs[s].matchId in db.matches && r == RecordOf(db, s, r.total)
    requires DecodeTests(db.problems[db.matches[db.subs[s].matchId].problem]) == Some(r.total)
    ensures RecordFits(db, r)
  {
  }
}
