/**
 * The one fold from three-valued signals to a three-valued verdict, over any
 * table of signals the table's own validation accepts.
 */
module Assess {
  import opened Wrappers

  const OBSERVATION_DIRECT := "direct"

  datatype SignalSpec = SignalSpec(name: string, healthy: bool, loadBearing: bool, decisive: bool, observation: string)

  type Table = seq<SignalSpec>

  // ---- Which tables are accepted --------------------------------------------------------

  datatype SpecError =
    | DuplicateSignal(name: string)
    | DecisiveNotLoadBearing(name: string)
    | DecisiveNotDirect(name: string)

  predicate DistinctNames(specs: Table) {
    forall i, j :: 0 <= i < j < |specs| ==> specs[i].name != specs[j].name
  }

  /** Only a signal that takes part in the verdict, and was seen first-hand, may decide it alone. */
  predicate MayDecide(spec: SignalSpec) {
    spec.decisive ==> spec.loadBearing && spec.observation == OBSERVATION_DIRECT
  }

  predicate ValidTable(specs: Table) {
    DistinctNames(specs) && forall i :: 0 <= i < |specs| ==> MayDecide(specs[i])
  }

  /** A table is refused exactly when it is invalid, and the row named is the first that makes it so. */
  method ValidateSpecs(specs: Table) returns (r: Result<(), SpecError>)
    ensures r.Ok? <==> ValidTable(specs)
    ensures r.Err? ==> exists i :: 0 <= i < |specs| && ValidTable(specs[..i]) && r.error.name == specs[i].name &&
                              match r.error
                              case DuplicateSignal(name) => exists j :: 0 <= j < i && specs[j].name == name
                              case DecisiveNotLoadBearing(_) => specs[i].decisive && !specs[i].loadBearing
                              case DecisiveNotDirect(_) => specs[i].decisive && specs[i].observation != OBSERVATION_DIRECT
  {
    var seen: set<string> := {};
    for i := 0 to |specs|
      invariant ValidTable(specs[..i])
      invariant seen == set j | 0 <= j < i :: specs[j].name
    {
      var spec := specs[i];
      if spec.name in seen {
        assert exists j :: 0 <= j < i && specs[j].name == spec.name;
        return Err(DuplicateSignal(spec.name));
      }
      seen := seen + {spec.name};
      if spec.decisive && !spec.loadBearing {
        assert specs[i] == spec;
        return Err(DecisiveNotLoadBearing(spec.name));
      }
      if spec.decisive && spec.observation != OBSERVATION_DIRECT {
        assert specs[i] == spec;
        return Err(DecisiveNotDirect(spec.name));
      }
    }
    assert specs[..|specs|] == specs;
    r := Ok(());
  }

  // ---- One agent's state, and the fold --------------------------------------------------

  /** A signal nobody read is absent; a signal somebody failed to read is None. Both read as None. */
  datatype AgentState = AgentState(agent: string, signals: map<string, Option<bool>>)

  function Read(state: AgentState, name: string): Option<bool> {
    if name in state.signals then state.signals[name] else None
  }

  function WithSignal(state: AgentState, name: string, value: Option<bool>): AgentState {
    state.(signals := state.signals[name := value])
  }

  datatype Assessment = Assessment(
    agent: string, verdict: Option<bool>, deciding: seq<string>, unresolved: seq<string>, decidedBy: string)

  predicate Refutes(state: AgentState, spec: SignalSpec) {
    var value := Read(state, spec.name);
    value.Some? && value.value != spec.healthy
  }

  predicate Unread(state: AgentState, spec: SignalSpec) { Read(state, spec.name).None? }

  function LoadBearing(specs: Table): (r: Table)
    ensures forall x :: x in r <==> x in specs && x.loadBearing
  {
    if specs == [] then []
    else (if specs[0].loadBearing then [specs[0]] else []) + LoadBearing(specs[1..])
  }

  /** The names of the rows that satisfy `p`, in table order. */
  function Names(specs: Table, p: SignalSpec -> bool): (r: seq<string>)
    ensures forall n :: n in r <==> exists x :: x in specs && p(x) && x.name == n
  {
    if specs == [] then []
    else (if p(specs[0]) then [specs[0].name] else []) + Names(specs[1..], p)
  }

  function FirstDecisive(specs: Table, state: AgentState): (r: Option<SignalSpec>)
    ensures r.None? <==> forall x :: x in specs ==> !(x.decisive && Refutes(state, x))
    ensures r.Some? ==> r.value in specs && r.value.decisive && Refutes(state, r.value)
  {
    if specs == [] then None
    else if specs[0].decisive && Refutes(state, specs[0]) then Some(specs[0])
    else FirstDecisive(specs[1..], state)
  }

  function Assess(specs: Table, state: AgentState): Assessment {
    var bearing := LoadBearing(specs);
    var unresolved := Names(bearing, x => Unread(state, x));
    var decisive := FirstDecisive(bearing, state);
    if decisive.Some? then
      Assessment(state.agent, Some(false), [decisive.value.name], unresolved, decisive.value.name)
    else if unresolved != [] then
      Assessment(state.agent, None, unresolved, unresolved, "")
    else
      var refuting := Names(bearing, x => Refutes(state, x));
      if refuting != [] then Assessment(state.agent, Some(false), refuting, [], "")
      else Assessment(state.agent, Some(true), Names(bearing, x => true), [], "")
  }

  function ExitCode(a: Assessment): int {
    match a.verdict
    case Some(true) => 0
    case Some(false) => 1
    case None => 2
  }

  // ---- What a verdict means -------------------------------------------------------------

  ghost predicate Convicted(specs: Table, state: AgentState) {
    exists x :: x in specs && x.loadBearing && x.decisive && Refutes(state, x)
  }

  ghost predicate Refuted(specs: Table, state: AgentState) {
    exists x :: x in specs && x.loadBearing && Refutes(state, x)
  }

  ghost predicate Incomplete(specs: Table, state: AgentState) {
    exists x :: x in specs && x.loadBearing && Unread(state, x)
  }

  lemma NamesAreNone(specs: Table, p: SignalSpec -> bool)
    ensures Names(specs, p) == [] <==> forall x :: x in specs ==> !p(x)
  {
    if x :| x in specs && p(x) {
      assert x.name in Names(specs, p);
    }
    if Names(specs, p) != [] {
      assert Names(specs, p)[0] in Names(specs, p);
    }
  }

  /** The three verdicts, each told by the signals alone; the exit code splits the same three ways. */
  lemma VerdictMeaning(specs: Table, state: AgentState)
    ensures var v := Assess(specs, state).verdict;
            && (v == None <==> !Convicted(specs, state) && Incomplete(specs, state))
            && (v == Some(false) <==> Convicted(specs, state) || (Refuted(specs, state) && !Incomplete(specs, state)))
            && (v == Some(true) <==> forall x :: x in specs && x.loadBearing ==> Read(state, x.name) == Some(x.healthy))
    ensures ExitCode(Assess(specs, state)) == 2 <==> !Convicted(specs, state) && Incomplete(specs, state)
    ensures ExitCode(Assess(specs, state)) == 0 <==> Assess(specs, state).verdict == Some(true)
  {
    var bearing := LoadBearing(specs);
    NamesAreNone(bearing, x => Unread(state, x));
    NamesAreNone(bearing, x => Refutes(state, x));
  }

  /** Everything `before` says, `after` says too. */
  ghost predicate Extends(before: AgentState, after: AgentState) {
    forall n :: n in before.signals && before.signals[n].Some? ==> Read(after, n) == before.signals[n]
  }

  /** Nothing read later can overturn a verdict once one is given. */
  lemma VerdictIsMonotone(specs: Table, before: AgentState, after: AgentState)
    requires Extends(before, after)
    requires Assess(specs, before).verdict.Some?
    ensures Assess(specs, after).verdict == Assess(specs, before).verdict
  {
    VerdictMeaning(specs, before);
    VerdictMeaning(specs, after);
    forall x | x in specs && Read(before, x.name).Some? ensures Read(after, x.name) == Read(before, x.name) {
    }
    if Convicted(specs, before) {
      var x :| x in specs && x.loadBearing && x.decisive && Refutes(before, x);
      assert Refutes(after, x);
    } else {
      assert !Incomplete(specs, before);
      forall x | x in specs && x.loadBearing ensures Read(after, x.name) == Read(before, x.name) {
        assert !Unread(before, x);
      }
      if Refuted(specs, before) {
        var x :| x in specs && x.loadBearing && Refutes(before, x);
        assert Refutes(after, x);
      }
    }
  }

  /** Recording one signal nobody had read keeps a verdict already given. */
  lemma OneMoreReadingKeepsVerdict(specs: Table, state: AgentState, name: string, value: Option<bool>)
    requires Read(state, name).None?
    requires Assess(specs, state).verdict.Some?
    ensures Assess(specs, WithSignal(state, name, value)).verdict == Assess(specs, state).verdict
  {
    VerdictIsMonotone(specs, state, WithSignal(state, name, value));
  }

  // ---- An unknown verdict is an honest one ----------------------------------------------

  ghost predicate Completion(specs: Table, before: AgentState, after: AgentState) {
    Extends(before, after) && forall x :: x in specs ==> !Unread(after, x)
  }

  function SpecNamed(specs: Table, name: string): (r: Option<SignalSpec>)
    ensures r.Some? ==> r.value in specs && r.value.name == name
    ensures r.None? ==> forall x :: x in specs ==> x.name != name
  {
    if specs == [] then None else if specs[0].name == name then Some(specs[0]) else SpecNamed(specs[1..], name)
  }

  /** Every unread signal of the table filled in at one pole. */
  function Filled(specs: Table, state: AgentState, well: bool): AgentState {
    state.(signals := state.signals + map n | n in (set x | x in specs && Unread(state, x) :: x.name)
                                        :: Some(SpecNamed(specs, n).Some? && SpecNamed(specs, n).value.healthy == well))
  }

  lemma FilledReads(specs: Table, state: AgentState, well: bool, x: SignalSpec)
    requires DistinctNames(specs) && x in specs
    ensures Completion(specs, state, Filled(specs, state, well))
    ensures Read(Filled(specs, state, well), x.name) ==
            if Unread(state, x) then Some(x.healthy == well) else Read(state, x.name)
  {
    assert SpecNamed(specs, x.name).value == x;
    forall y | y in specs ensures !Unread(Filled(specs, state, well), y) {
      if !Unread(state, y) {
        assert y.name !in (set z | z in specs && Unread(state, z) :: z.name);
      }
    }
    if !Unread(state, x) {
      assert x.name !in (set z | z in specs && Unread(state, z) :: z.name);
    }
    forall n | n in state.signals && state.signals[n].Some?
      ensures n !in (set z | z in specs && Unread(state, z) :: z.name)
    {
    }
  }

  lemma SomeCompletionCondemns(specs: Table, state: AgentState)
    requires DistinctNames(specs) && Incomplete(specs, state)
    ensures Completion(specs, state, Filled(specs, state, false))
    ensures Assess(specs, Filled(specs, state, false)).verdict == Some(false)
  {
    var ill := Filled(specs, state, false);
    var gap :| gap in specs && gap.loadBearing && Unread(state, gap);
    FilledReads(specs, state, false, gap);
    hide Filled, Assess, FirstDecisive;
    assert Refutes(ill, gap);
    assert !Incomplete(specs, ill);
    VerdictMeaning(specs, ill);
  }

  lemma SomeCompletionClears(specs: Table, state: AgentState)
    requires DistinctNames(specs) && Incomplete(specs, state) && !Refuted(specs, state)
    ensures Completion(specs, state, Filled(specs, state, true))
    ensures Assess(specs, Filled(specs, state, true)).verdict == Some(true)
  {
    var well := Filled(specs, state, true);
    var gap :| gap in specs && gap.loadBearing && Unread(state, gap);
    FilledReads(specs, state, true, gap);
    hide Filled, Assess, FirstDecisive, Completion;
    forall x | x in specs && x.loadBearing ensures Read(well, x.name) == Some(x.healthy) {
      FilledReads(specs, state, true, x);
      assert !Refutes(state, x);
    }
    VerdictMeaning(specs, well);
  }

  /**
   * When the verdict is unknown, some completion of the unread signals is
   * unhealthy; and some completion is healthy exactly when nothing load-bearing
   * refutes yet. So the verdict is withheld from a state every completion
   * condemns exactly when a refutation is in hand that is not decisive.
   */
  lemma UnknownIsUndetermined(specs: Table, state: AgentState)
    requires ValidTable(specs)
    requires Assess(specs, state).verdict == None
    ensures exists after :: Completion(specs, state, after) && Assess(specs, after).verdict == Some(false)
    ensures (exists after :: Completion(specs, state, after) && Assess(specs, after).verdict == Some(true)) <==>
            !Refuted(specs, state)
  {
    VerdictMeaning(specs, state);
    hide Assess, Filled;
    SomeCompletionCondemns(specs, state);
    if Refuted(specs, state) {
      var x :| x in specs && x.loadBearing && Refutes(state, x);
      forall after | Completion(specs, state, after) ensures Assess(specs, after).verdict != Some(true) {
        VerdictMeaning(specs, after);
      }
    } else {
      SomeCompletionClears(specs, state);
    }
  }

  /** While anything load-bearing is unread, only a signal observed first-hand can convict. */
  lemma OnlyDirectObservationConvictsBlind(specs: Table, state: AgentState)
    requires ValidTable(specs) && Incomplete(specs, state)
    requires Assess(specs, state).verdict == Some(false)
    ensures var a := Assess(specs, state);
            exists x :: x in specs && a.deciding == [x.name] && a.decidedBy == x.name
                        && x.observation == OBSERVATION_DIRECT && x.loadBearing && Refutes(state, x)
  {
    VerdictMeaning(specs, state);
    var x := FirstDecisive(LoadBearing(specs), state).value;
    var i :| 0 <= i < |specs| && specs[i] == x;
    assert MayDecide(specs[i]);
    assert Assess(specs, state).deciding == [x.name];
  }

  // ---- What the verdict names -----------------------------------------------------------

  lemma DistinctCons(spec: SignalSpec, rest: Table)
    ensures DistinctNames([spec] + rest) <==> DistinctNames(rest) && forall x :: x in rest ==> x.name != spec.name
  {
    var all := [spec] + rest;
    if DistinctNames(all) {
      forall x | x in rest ensures x.name != spec.name {
        var k :| 0 <= k < |rest| && rest[k] == x;
        assert all[0].name != all[k + 1].name;
      }
      forall i, j | 0 <= i < j < |rest| ensures rest[i].name != rest[j].name {
        assert all[i + 1].name != all[j + 1].name;
      }
    }
  }

  lemma {:induction false} LoadBearingKeepsDistinct(specs: Table)
    requires DistinctNames(specs)
    ensures DistinctNames(LoadBearing(specs))
  {
    if specs != [] {
      assert specs == [specs[0]] + specs[1..];
      DistinctCons(specs[0], specs[1..]);
      LoadBearingKeepsDistinct(specs[1..]);
      DistinctCons(specs[0], LoadBearing(specs[1..]));
      hide DistinctNames;
      if !specs[0].loadBearing {
        assert LoadBearing(specs) == LoadBearing(specs[1..]);
      }
    }
  }

  lemma {:induction false} NamesAreDistinct(specs: Table, p: SignalSpec -> bool)
    requires DistinctNames(specs)
    ensures forall i, j :: 0 <= i < j < |Names(specs, p)| ==> Names(specs, p)[i] != Names(specs, p)[j]
  {
    if specs != [] {
      assert specs == [specs[0]] + specs[1..];
      DistinctCons(specs[0], specs[1..]);
      hide DistinctNames;
      NamesAreDistinct(specs[1..], p);
      var rest := Names(specs[1..], p);
      assert specs[0].name !in rest;
      if !p(specs[0]) {
        assert Names(specs, p) == rest;
      } else {
        assert Names(specs, p) == [specs[0].name] + rest;
      }
    }
  }

  /** The unread list holds exactly the unread load-bearing signals, once each, whatever the verdict. */
  lemma UnresolvedIsExact(specs: Table, state: AgentState, n: string)
    requires ValidTable(specs)
    ensures var unresolved := Assess(specs, state).unresolved;
            && (n in unresolved <==> exists x :: x in specs && x.loadBearing && x.name == n && Unread(state, x))
            && (forall i, j :: 0 <= i < j < |unresolved| ==> unresolved[i] != unresolved[j])
  {
    var bearing := LoadBearing(specs);
    var unread := x => Unread(state, x);
    LoadBearingKeepsDistinct(specs);
    NamesAreDistinct(bearing, unread);
    NamesAreNone(bearing, unread);
    assert Assess(specs, state).unresolved == Names(bearing, unread);
  }

  /**
   * The deciding list is the unread signals of an unknown verdict, every
   * load-bearing signal of a healthy one, every refutation of a fully observed
   * unhealthy one, and the one decisive refutation otherwise.
   */
  lemma DecidingIsExact(specs: Table, state: AgentState, n: string)
    ensures var a := Assess(specs, state);
            && (a.verdict == None ==> a.deciding == a.unresolved != [])
            && (a.verdict == Some(true) ==> (n in a.deciding <==> exists x :: x in specs && x.loadBearing && x.name == n))
            && (a.verdict == Some(false) && !Convicted(specs, state) ==>
                  (n in a.deciding <==> exists x :: x in specs && x.loadBearing && x.name == n && Refutes(state, x)))
            && (Convicted(specs, state) ==>
                  exists x :: x in specs && x.loadBearing && x.decisive && Refutes(state, x) && a.deciding == [x.name])
  {
    VerdictMeaning(specs, state);
    var bearing := LoadBearing(specs);
    if Convicted(specs, state) {
      var x := FirstDecisive(bearing, state).value;
      assert x in specs && x.loadBearing && x.decisive && Refutes(state, x) && Assess(specs, state).deciding == [x.name];
    }
  }

  // ---- What cannot change the verdict ---------------------------------------------------

  /** States that agree on the load-bearing signals get the same verdict: evidence never decides. */
  lemma EvidenceNeverMatters(specs: Table, s: AgentState, t: AgentState)
    requires forall x :: x in specs && x.loadBearing ==> Read(s, x.name) == Read(t, x.name)
    ensures Assess(specs, s).verdict == Assess(specs, t).verdict
    ensures Assess(LoadBearing(specs), s).verdict == Assess(specs, t).verdict
  {
    VerdictMeaning(specs, s);
    VerdictMeaning(specs, t);
    VerdictMeaning(LoadBearing(specs), s);
    forall x | x in specs && x.loadBearing
      ensures (Refutes(s, x) <==> Refutes(t, x)) && (Unread(s, x) <==> Unread(t, x)) && x in LoadBearing(specs)
    {
    }
    forall u | u == s || u == t
      ensures (Convicted(LoadBearing(specs), u) <==> Convicted(specs, u)) && (Incomplete(LoadBearing(specs), u) <==> Incomplete(specs, u))
    {
    }
    assert Convicted(specs, s) <==> Convicted(specs, t);
    assert Incomplete(specs, s) <==> Incomplete(specs, t);
  }

  /** Neither the order of the table nor a repeated row changes the verdict or which signals are unread. */
  lemma TableOrderNeverMatters(specs: Table, shuffled: Table, state: AgentState, n: string)
    requires forall x :: x in specs <==> x in shuffled
    ensures Assess(specs, state).verdict == Assess(shuffled, state).verdict
    ensures n in Assess(specs, state).unresolved <==> n in Assess(shuffled, state).unresolved
  {
    VerdictMeaning(specs, state);
    VerdictMeaning(shuffled, state);
    assert Convicted(specs, state) <==> Convicted(shuffled, state);
    assert Incomplete(specs, state) <==> Incomplete(shuffled, state);
    forall t | t == specs || t == shuffled
      ensures n in Assess(t, state).unresolved <==> exists x :: x in specs && x.loadBearing && x.name == n && Unread(state, x)
    {
      NamesAreNone(LoadBearing(t), x => Unread(state, x));
    }
  }

  /** An agent nobody could read at all is unknown, never well, so long as the table has one load-bearing row. */
  lemma UnreadAgentIsUnknown(specs: Table, agent: string)
    ensures Assess(specs, AgentState(agent, map[])).verdict ==
            if exists x :: x in specs && x.loadBearing then None else Some(true)
  {
    VerdictMeaning(specs, AgentState(agent, map[]));
    forall x ensures Unread(AgentState(agent, map[]), x) {
    }
  }
}
