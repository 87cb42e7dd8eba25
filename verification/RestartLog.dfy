/**
 * The append-only restart record: an attempt written before the act, an outcome
 * after it, and the query for attempts that cannot be shown to have worked.
 */
module RestartLog {
  import opened Wrappers

  datatype Kind = FailureObserved | TokenRotated | RestartAttempted | RestartOutcome | OtherKind

  /** One parsed record; `succeeded` is None when the record does not say. */
  datatype AuthEvent = AuthEvent(kind: Kind, attemptId: Option<string>, succeeded: Option<bool>)

  type Log = seq<AuthEvent>

  /** Ids some outcome records as a success. An empty id proves nothing. */
  function SucceededIds(log: Log): set<string> {
    set e | e in log && e.kind == RestartOutcome && e.succeeded == Some(true) && e.attemptId.Some? && e.attemptId.value != "" :: e.attemptId.value
  }

  predicate IsUnresolved(e: AuthEvent, succeeded: set<string>) {
    e.kind == RestartAttempted && (e.attemptId.None? || e.attemptId.value !in succeeded)
  }

  function Keep(log: Log, succeeded: set<string>): Log {
    if log == [] then []
    else Keep(log[..|log| - 1], succeeded) + (if IsUnresolved(log[|log| - 1], succeeded) then [log[|log| - 1]] else [])
  }

  /** Attempts no outcome records as a success, in the order they were made. */
  function UnresolvedAttempts(log: Log): Log { Keep(log, SucceededIds(log)) }

  lemma {:induction false} KeepIsExact(log: Log, succeeded: set<string>, e: AuthEvent)
    ensures e in Keep(log, succeeded) <==> e in log && IsUnresolved(e, succeeded)
  {
    if log != [] {
      KeepIsExact(log[..|log| - 1], succeeded, e);
      assert log == log[..|log| - 1] + [log[|log| - 1]];
    }
  }

  // ---- Any number of restarts at once -------------------------------------------------

  datatype Result = Worked | ReturnedFalse | Raised

  /** How far one restart has come; a crash stops it wherever it is. */
  datatype Phase =
    | NotBegun
    | Begun(recorded: bool)
    | Acted(recorded: bool, result: Result)
    | Told(recorded: bool, result: Result, landed: bool)
    | Crashed(recorded: bool)

  /** `landed` says whether that write reached the log. Noise is whatever else gets logged. */
  datatype Event =
    | Begin(id: string, landed: bool)
    | Act(id: string, result: Result)
    | Tell(id: string, landed: bool)
    | Crash(id: string)
    | Noise(record: AuthEvent)

  datatype World = World(log: Log, phases: map<string, Phase>)

  function PhaseOf(w: World, id: string): Phase { if id in w.phases then w.phases[id] else NotBegun }

  function AttemptRecord(id: string): AuthEvent { AuthEvent(RestartAttempted, Some(id), None) }

  function OutcomeRecord(id: string, ok: bool): AuthEvent { AuthEvent(RestartOutcome, Some(id), Some(ok)) }

  function Written(log: Log, e: AuthEvent, landed: bool): Log { if landed then log + [e] else log }

  /** An event that is not enabled changes nothing; ids are never empty and never reused. */
  function Apply(w: World, e: Event): World {
    match e
    case Begin(id, landed) =>
      if id != "" && PhaseOf(w, id).NotBegun? then World(Written(w.log, AttemptRecord(id), landed), w.phases[id := Begun(landed)]) else w
    case Act(id, result) =>
      var p := PhaseOf(w, id);
      if p.Begun? then w.(phases := w.phases[id := Acted(p.recorded, result)]) else w
    case Tell(id, landed) =>
      var p := PhaseOf(w, id);
      if p.Acted? then World(Written(w.log, OutcomeRecord(id, p.result == Worked), landed), w.phases[id := Told(p.recorded, p.result, landed)]) else w
    case Crash(id) =>
      var p := PhaseOf(w, id);
      if p.Begun? || p.Acted? then w.(phases := w.phases[id := Crashed(p.recorded)]) else w
    case Noise(record) =>
      if record.kind != RestartAttempted && record.kind != RestartOutcome then w.(log := w.log + [record]) else w
  }

  const QUIET := World([], map[])

  function Run(events: seq<Event>): World {
    if events == [] then QUIET else Apply(Run(events[..|events| - 1]), events[|events| - 1])
  }

  /** The attempt's record reached the log. */
  predicate Recorded(p: Phase) { !p.NotBegun? && p.recorded }

  /** It came back, it worked, and its outcome reached the log. */
  predicate ShownToWork(p: Phase) { p.Told? && p.result == Worked && p.landed }

  /** The log holds exactly the attempts recorded and the successes shown, once each. */
  ghost predicate Faithful(w: World) {
    && (forall id: string :: AttemptRecord(id) in w.log <==> Recorded(PhaseOf(w, id)))
    && (forall id: string :: OutcomeRecord(id, true) in w.log <==> ShownToWork(PhaseOf(w, id)))
    && (forall e :: e in w.log && e.kind == RestartAttempted ==> e.attemptId.Some? && e == AttemptRecord(e.attemptId.value))
    && (forall e :: e in w.log && e.kind == RestartOutcome && e.succeeded == Some(true) ==> e.attemptId.Some? && e == OutcomeRecord(e.attemptId.value, true))
    && (forall id: string :: id in w.phases ==> id != "" && !w.phases[id].NotBegun?)
    && (forall i, j :: 0 <= i < j < |w.log| && w.log[i].kind == RestartAttempted ==> w.log[i] != w.log[j])
  }

  lemma AppendKeepsMembers(log: Log, e: AuthEvent)
    ensures forall x :: x in log + [e] <==> x in log || x == e
  {
  }

  lemma StepIsFaithful(w: World, e: Event)
    requires Faithful(w)
    ensures Faithful(Apply(w, e))
  {
    var v := Apply(w, e);
    if v.log != w.log {
      var record := v.log[|w.log|];
      AppendKeepsMembers(w.log, record);
      assert v.log == w.log + [record];
    }
    if !e.Noise? {
      assert Recorded(PhaseOf(w, e.id)) <==> AttemptRecord(e.id) in w.log;
      assert ShownToWork(PhaseOf(w, e.id)) <==> OutcomeRecord(e.id, true) in w.log;
    }
  }

  lemma {:induction false} RunIsFaithful(events: seq<Event>)
    ensures Faithful(Run(events))
  {
    if events != [] {
      RunIsFaithful(events[..|events| - 1]);
      StepIsFaithful(Run(events[..|events| - 1]), events[|events| - 1]);
    }
  }

  /**
   * Whatever is interleaved, dropped or crashed: an attempt is listed exactly
   * when its record landed and it was not shown to work.
   */
  lemma UnresolvedIsExact(events: seq<Event>, id: string)
    ensures var w := Run(events);
            AttemptRecord(id) in UnresolvedAttempts(w.log) <==> Recorded(PhaseOf(w, id)) && !ShownToWork(PhaseOf(w, id))
  {
    var w := Run(events);
    RunIsFaithful(events);
    KeepIsExact(w.log, SucceededIds(w.log), AttemptRecord(id));
    if id in SucceededIds(w.log) {
      var e :| e in w.log && e.kind == RestartOutcome && e.succeeded == Some(true) && e.attemptId == Some(id);
      assert e == OutcomeRecord(id, true);
    }
    if ShownToWork(PhaseOf(w, id)) {
      assert OutcomeRecord(id, true) in w.log;
      assert id in w.phases;
    }
  }

  /** A recorded attempt that crashed, raised or returned False is never omitted, whichever writes were dropped. */
  lemma FailuresAreNeverOmitted(events: seq<Event>, id: string)
    requires var p := PhaseOf(Run(events), id);
             Recorded(p) && (p.Crashed? || ((p.Acted? || p.Told?) && p.result != Worked))
    ensures AttemptRecord(id) in UnresolvedAttempts(Run(events).log)
  {
    UnresolvedIsExact(events, id);
  }

  predicate EveryWriteLands(events: seq<Event>) {
    forall e :: e in events && (e.Begin? || e.Tell?) ==> e.landed
  }

  lemma {:induction false} LandedWritesAreRecorded(events: seq<Event>, id: string)
    requires EveryWriteLands(events)
    ensures var p := PhaseOf(Run(events), id); (!p.NotBegun? ==> p.recorded) && (p.Told? ==> p.landed)
  {
    if events != [] {
      var n := |events| - 1;
      LandedWritesAreRecorded(events[..n], id);
      assert events[n] in events;
    }
  }

  /** When every write lands, the list is exactly the attempts begun that did not come back having worked. */
  lemma UnresolvedWhenAllWritesLand(events: seq<Event>, id: string)
    requires EveryWriteLands(events)
    ensures var p := PhaseOf(Run(events), id);
            AttemptRecord(id) in UnresolvedAttempts(Run(events).log) <==>
            p.Begun? || p.Acted? || p.Crashed? || (p.Told? && p.result != Worked)
  {
    UnresolvedIsExact(events, id);
    LandedWritesAreRecorded(events, id);
  }

  lemma {:induction false} KeepKeepsDistinct(log: Log, succeeded: set<string>)
    requires forall i, j :: 0 <= i < j < |log| && log[i].kind == RestartAttempted ==> log[i] != log[j]
    ensures var kept := Keep(log, succeeded); forall i, j :: 0 <= i < j < |kept| ==> kept[i] != kept[j]
  {
    if log != [] {
      var n := |log| - 1;
      KeepKeepsDistinct(log[..n], succeeded);
      var before := Keep(log[..n], succeeded);
      forall i | 0 <= i < |before| && IsUnresolved(log[n], succeeded) ensures before[i] != log[n] {
        KeepIsExact(log[..n], succeeded, before[i]);
        var k :| 0 <= k < n && log[k] == before[i];
      }
    }
  }

  /** No attempt is listed twice. */
  lemma UnresolvedHasNoRepeats(events: seq<Event>)
    ensures var listed := UnresolvedAttempts(Run(events).log);
            forall i, j :: 0 <= i < j < |listed| ==> listed[i] != listed[j]
  {
    var log := Run(events).log;
    RunIsFaithful(events);
    assert Faithful(Run(events));
    KeepKeepsDistinct(log, SucceededIds(log));
    assert UnresolvedAttempts(log) == Keep(log, SucceededIds(log));
  }

  // ---- One restart, as the pass performs it --------------------------------------------

  datatype Allowance = BudgetUnreadable | Debounced | OverHourlyCap | OverPassCap | Allowed

  datatype Verdict = BudgetUnknown | CoolingDown | OverBudget | Capped | WouldRestart | Restarted | Failed

  /** The two records one restart leaves, attempt first. */
  function Performed(log: Log, id: string, result: Result, attemptLands: bool, outcomeLands: bool): Log {
    Written(Written(log, AttemptRecord(id), attemptLands), OutcomeRecord(id, result == Worked), outcomeLands)
  }

  /** One uninterrupted restart is three events of the world: begin, act, tell. */
  lemma PerformIsThreeEvents(w: World, id: string, result: Result, attemptLands: bool, outcomeLands: bool)
    requires id != "" && PhaseOf(w, id).NotBegun?
    ensures var v := Apply(Apply(Apply(w, Begin(id, attemptLands)), Act(id, result)), Tell(id, outcomeLands));
            && v.log == Performed(w.log, id, result, attemptLands, outcomeLands)
            && PhaseOf(v, id) == Told(attemptLands, result, outcomeLands)
  {
  }

  class AuthLog {
    var log: Log
    var spent: nat

    constructor ()
      ensures log == [] && spent == 0
    {
      log, spent := [], 0;
    }

    /** Append, if the write lands; never raises. */
    method LogEvent(e: AuthEvent, landed: bool)
      modifies this`log
      ensures log == Written(old(log), e, landed)
    {
      if landed { log := log + [e]; }
    }

    /**
     * Perform one restart: nothing is logged, spent or restarted unless the
     * budget allows it and it is asked for; then the attempt is logged before
     * the act, the budget is spent, and the outcome is logged after it.
     * `PerformIsThreeEvents` makes it part of the runs `UnresolvedIsExact` is about.
     */
    method Perform(id: string, allowance: Allowance, apply: bool, result: Result, attemptLands: bool, outcomeLands: bool) returns (v: Verdict)
      requires id != ""
      modifies this
      ensures allowance != Allowed || !apply ==> log == old(log) && spent == old(spent)
      ensures allowance == Allowed && apply ==>
                spent == old(spent) + 1 && log == Performed(old(log), id, result, attemptLands, outcomeLands)
      ensures v == match allowance
                   case BudgetUnreadable => BudgetUnknown
                   case Debounced => CoolingDown
                   case OverHourlyCap => OverBudget
                   case OverPassCap => Capped
                   case Allowed => if !apply then WouldRestart else if result == Worked then Restarted else Failed
    {
      match allowance {
        case BudgetUnreadable => return BudgetUnknown;
        case Debounced => return CoolingDown;
        case OverHourlyCap => return OverBudget;
        case OverPassCap => return Capped;
        case Allowed =>
      }
      if !apply { return WouldRestart; }
      LogEvent(AttemptRecord(id), attemptLands);
      spent := spent + 1;
      if result == Raised {
        LogEvent(OutcomeRecord(id, false), outcomeLands);
        return Failed;
      }
      LogEvent(OutcomeRecord(id, result == Worked), outcomeLands);
      v := if result == Worked then Restarted else Failed;
    }
  }
}
