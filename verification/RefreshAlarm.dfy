/**
 * Alerting on failed refreshes: one acknowledged alert an outage, retried until
 * it is delivered, re-armed by recovery.
 */
module RefreshAlarm {
  import opened Wrappers
  import opened Json

  /**
   * One account's result in one run. `ok` covers skipped as well as succeeded;
   * `delivers` says whether an alert sent for it would be recorded.
   */
  datatype Result = Result(name: string, ok: bool, error: string, at: int, delivers: bool)

  datatype Acknowledged = Acknowledged(at: int, error: string)

  type State = map<string, Acknowledged>

  function NameOf(r: Result): string { Strip(r.name) }

  /** Recovery forgets, a first delivered failure remembers, everything else leaves the state alone. */
  function AfterResult(s: State, r: Result): State {
    var name := NameOf(r);
    if name == "" then s
    else if r.ok then s - {name}
    else if name in s || !r.delivers then s
    else s[name := Acknowledged(r.at, if r.error == "" then "unknown error" else r.error)]
  }

  predicate Alerts(s: State, r: Result) {
    NameOf(r) != "" && !r.ok && NameOf(r) !in s && r.delivers
  }

  function After(s: State, results: seq<Result>): State {
    if results == [] then s else AfterResult(After(s, results[..|results| - 1]), results[|results| - 1])
  }

  function Alerted(s: State, results: seq<Result>): seq<string> {
    if results == [] then []
    else
      var n := |results| - 1;
      Alerted(s, results[..n]) + (if Alerts(After(s, results[..n]), results[n]) then [NameOf(results[n])] else [])
  }

  /** The dedupe state on disk. */
  class Alarm {
    var saved: State

    constructor ()
      ensures saved == map[]
    {
      saved := map[];
    }

    /** One run over one run's results; `writable` says whether the state can be saved. `OneAlertPerReportedOutage` says what the alerts amount to. */
    method AlertFailedRefreshes(results: seq<Result>, writable: bool) returns (alerted: seq<string>)
      modifies this
      ensures saved == (if writable then After(old(saved), results) else old(saved))
      ensures alerted == Alerted(old(saved), results)
    {
      var state, dirty := saved, false;
      alerted := [];
      for n := 0 to |results|
        invariant saved == old(saved)
        invariant state == After(saved, results[..n]) && alerted == Alerted(saved, results[..n])
        invariant !dirty ==> state == saved
      {
        assert results[..n + 1][..n] == results[..n];
        var r := results[n];
        var name := NameOf(r);
        if name == "" {
          continue;
        }
        if r.ok {
          if name in state {
            state, dirty := state - {name}, true;
          } else {
            assert state - {name} == state;
          }
          continue;
        }
        if name in state {
          continue;
        }
        if !r.delivers {
          continue;
        }
        state, dirty := state[name := Acknowledged(r.at, if r.error == "" then "unknown error" else r.error)], true;
        alerted := alerted + [name];
      }
      assert results[..|results|] == results;
      if dirty && writable {
        saved := state;
      }
    }
  }

  // ---- Judged over whole histories ---------------------------------------------------

  /** One account's view of a history: a recovery, or a failure whose alert would or would not be recorded. */
  datatype Episode = Recovery | Failure(delivers: bool)

  function EpisodesOf(results: seq<Result>, name: string): seq<Episode> {
    if results == [] then []
    else
      var last := results[|results| - 1];
      EpisodesOf(results[..|results| - 1], name) + (if NameOf(last) == name then [if last.ok then Recovery else Failure(last.delivers)] else [])
  }

  /** The failures between one recovery and the next; the last entry is the current outage, empty when there is none. */
  function Outages(episodes: seq<Episode>): (r: seq<seq<bool>>)
    ensures r != []
  {
    if episodes == [] then [[]]
    else
      var before, last := Outages(episodes[..|episodes| - 1]), episodes[|episodes| - 1];
      var n := |before| - 1;
      if last.Recovery? then before + [[]] else before[..n] + [before[n] + [last.delivers]]
  }

  /** How many outages had at least one failure whose alert would be recorded. */
  function Reported(outages: seq<seq<bool>>): nat {
    if outages == [] then 0
    else Reported(outages[..|outages| - 1]) + (if true in outages[|outages| - 1] then 1 else 0)
  }

  function Current(outages: seq<seq<bool>>): seq<bool>
    requires outages != []
  {
    outages[|outages| - 1]
  }

  function AlertCount(results: seq<Result>, name: string): nat {
    multiset(Alerted(map[], results))[name]
  }

  lemma ReportedGrows(outages: seq<seq<bool>>, delivers: bool)
    requires outages != []
    ensures Reported(outages + [[]]) == Reported(outages)
    ensures var n := |outages| - 1;
            Reported(outages[..n] + [outages[n] + [delivers]]) ==
            Reported(outages) + (if delivers && true !in outages[n] then 1 else 0)
  {
    var n := |outages| - 1;
    assert (outages + [[]])[..n + 1] == outages;
    var longer := outages[..n] + [outages[n] + [delivers]];
    assert longer[..n] == outages[..n];
    assert true in longer[n] <==> delivers || true in outages[n];
  }

  /**
   * However the results of different accounts are interleaved: an account has
   * been alerted on once for every outage in which some alert could be recorded,
   * and is in the state exactly while its current outage is one of those.
   */
  lemma {:induction false} OneAlertPerReportedOutage(results: seq<Result>, name: string)
    requires name != ""
    ensures var outages := Outages(EpisodesOf(results, name));
            && AlertCount(results, name) == Reported(outages)
            && (name in After(map[], results) <==> true in Current(outages))
  {
    if results != [] {
      var n := |results| - 1;
      var last, before := results[n], EpisodesOf(results[..n], name);
      OneAlertPerReportedOutage(results[..n], name);
      var all := EpisodesOf(results, name);
      if NameOf(last) == name {
        assert all[..|before|] == before && all[|before|] == if last.ok then Recovery else Failure(last.delivers);
        ReportedGrows(Outages(before), last.delivers);
        var m := |Outages(before)| - 1;
        assert true in Outages(before)[m] + [last.delivers] <==> last.delivers || true in Outages(before)[m];
      } else {
        assert all == before;
      }
      assert Alerted(map[], results) == Alerted(map[], results[..n]) + (if Alerts(After(map[], results[..n]), last) then [NameOf(last)] else []);
    }
  }

  /** No account's results touch another's alerts or its place in the state. */
  lemma AccountsAreIndependent(a: seq<Result>, b: seq<Result>, name: string)
    requires name != "" && EpisodesOf(a, name) == EpisodesOf(b, name)
    ensures AlertCount(a, name) == AlertCount(b, name)
    ensures name in After(map[], a) <==> name in After(map[], b)
  {
    OneAlertPerReportedOutage(a, name);
    OneAlertPerReportedOutage(b, name);
  }

  // ---- Runs ------------------------------------------------------------------------------

  /** One timer run, and whether its state could be saved. */
  datatype RunInput = RunInput(results: seq<Result>, writable: bool)

  function AfterRuns(runs: seq<RunInput>): State {
    if runs == [] then map[]
    else
      var last, before := runs[|runs| - 1], AfterRuns(runs[..|runs| - 1]);
      if last.writable then After(before, last.results) else before
  }

  function AlertedInRuns(runs: seq<RunInput>): seq<string> {
    if runs == [] then []
    else AlertedInRuns(runs[..|runs| - 1]) + Alerted(AfterRuns(runs[..|runs| - 1]), runs[|runs| - 1].results)
  }

  function AllResults(runs: seq<RunInput>): seq<Result> {
    if runs == [] then [] else AllResults(runs[..|runs| - 1]) + runs[|runs| - 1].results
  }

  lemma {:induction false} StateContinues(s: State, a: seq<Result>, b: seq<Result>)
    ensures After(s, a + b) == After(After(s, a), b)
  {
    if b == [] {
      assert a + b == a;
    } else {
      var n := |b| - 1;
      StateContinues(s, a, b[..n]);
      assert (a + b)[..|a + b| - 1] == a + b[..n];
      hide AfterResult;
    }
  }

  lemma {:induction false} AlertsContinue(s: State, a: seq<Result>, b: seq<Result>)
    ensures Alerted(s, a + b) == Alerted(s, a) + Alerted(After(s, a), b)
  {
    if b == [] {
      assert a + b == a;
    } else {
      var n := |b| - 1;
      AlertsContinue(s, a, b[..n]);
      StateContinues(s, a, b[..n]);
      assert (a + b)[..|a + b| - 1] == a + b[..n];
      hide After, Alerts, NameOf;
    }
  }

  /** While every run saves its state, runs are one long history cut into pieces, so the outage count holds across them. */
  lemma {:induction false} SavedRunsAreOneHistory(runs: seq<RunInput>, name: string)
    requires name != "" && forall run :: run in runs ==> run.writable
    ensures AfterRuns(runs) == After(map[], AllResults(runs)) && AlertedInRuns(runs) == Alerted(map[], AllResults(runs))
    ensures multiset(AlertedInRuns(runs))[name] == Reported(Outages(EpisodesOf(AllResults(runs), name)))
  {
    if runs != [] {
      var n := |runs| - 1;
      SavedRunsAreOneHistory(runs[..n], name);
      StateContinues(map[], AllResults(runs[..n]), runs[n].results);
      AlertsContinue(map[], AllResults(runs[..n]), runs[n].results);
      assert runs[n] in runs;
    }
    OneAlertPerReportedOutage(AllResults(runs), name);
  }

  /** A run whose state could not be saved is forgotten: the same outage is alerted on again. */
  lemma UnsavedRunAlertsAgain(runs: seq<RunInput>, r: Result)
    requires Alerts(AfterRuns(runs), r)
    ensures AfterRuns(runs + [RunInput([r], false)]) == AfterRuns(runs)
    ensures AlertedInRuns(runs + [RunInput([r], false), RunInput([r], true)]) == AlertedInRuns(runs) + [NameOf(r), NameOf(r)]
  {
    var once := runs + [RunInput([r], false)];
    var twice := runs + [RunInput([r], false), RunInput([r], true)];
    assert once[..|once| - 1] == runs && twice[..|twice| - 1] == once;
    assert [r][..0] == [];
    assert Alerted(AfterRuns(runs), [r]) == [NameOf(r)];
  }
}
