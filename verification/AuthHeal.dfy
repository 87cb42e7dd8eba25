/**
 * The scheduled audit of auth banners: who is reported, what the exit code
 * claims, and why nothing it reads can make it restart anyone.
 */
module AuthHeal {
  import opened Wrappers
  import RestartLog

  type Pane = Option<string>

  /** Everything decided by matching rendered text, taken as given. */
  datatype Reader = Reader(
    lines: string -> seq<string>,
    banner: string -> bool,
    marker: string -> bool,
    stuck: (Pane, string) -> bool)

  // ---- Where the banners stand ----------------------------------------------------------

  datatype Standing = Alive | Dead | Unknown

  datatype Positional = Positional(state: Standing, markerLine: Option<nat>, bannerLines: seq<nat>, bannersBelow: seq<nat>)

  predicate IsLastMarker(reader: Reader, lines: seq<string>, found: Option<nat>) {
    match found
    case None => forall i :: 0 <= i < |lines| ==> !reader.marker(lines[i])
    case Some(m) => m < |lines| && reader.marker(lines[m]) && forall i :: m < i < |lines| ==> !reader.marker(lines[i])
  }

  /** The last marker, because only it delimits the current boot. */
  method MarkerLine(reader: Reader, lines: seq<string>) returns (found: Option<nat>)
    ensures IsLastMarker(reader, lines, found)
  {
    found := None;
    for i := 0 to |lines|
      invariant IsLastMarker(reader, lines[..i], found)
    {
      if reader.marker(lines[i]) { found := Some(i); }
    }
    assert lines[..|lines|] == lines;
  }

  function LastMarker(reader: Reader, lines: seq<string>): (r: Option<nat>)
    ensures IsLastMarker(reader, lines, r)
  {
    if lines == [] then None
    else if reader.marker(lines[|lines| - 1]) then Some(|lines| - 1)
    else LastMarker(reader, lines[..|lines| - 1])
  }

  function Banners(reader: Reader, lines: seq<string>): (r: seq<nat>)
    ensures forall i: nat :: i in r <==> i < |lines| && reader.banner(lines[i])
  {
    if lines == [] then []
    else
      var n := |lines| - 1;
      Banners(reader, lines[..n]) + (if reader.banner(lines[n]) then [n] else [])
  }

  function Beyond(at: seq<nat>, line: nat): (r: seq<nat>)
    ensures forall i: nat :: i in r <==> i in at && i > line
  {
    if at == [] then [] else Beyond(at[..|at| - 1], line) + (if at[|at| - 1] > line then [at[|at| - 1]] else [])
  }

  function ClassifyPositional(reader: Reader, pane: Pane): Positional {
    if pane.None? then Positional(Unknown, None, [], [])
    else
      var lines := reader.lines(pane.value);
      var banners := Banners(reader, lines);
      var marker := LastMarker(reader, lines);
      if marker.None? then Positional(Unknown, None, banners, [])
      else
        var below := Beyond(banners, marker.value);
        if below == [] then Positional(Alive, marker, banners, []) else Positional(Dead, marker, banners, below)
  }

  ghost predicate BannerAfter(reader: Reader, lines: seq<string>, line: nat) {
    exists i :: line < i < |lines| && reader.banner(lines[i])
  }

  /** Unknown without an anchor; otherwise dead exactly when this boot printed a banner after its marker. */
  lemma PositionalMeaning(reader: Reader, pane: Pane, m: nat)
    ensures var v := ClassifyPositional(reader, pane);
            && (v.state.Unknown? <==> pane.None? || IsLastMarker(reader, reader.lines(pane.value), None))
            && (pane.Some? && IsLastMarker(reader, reader.lines(pane.value), Some(m)) ==>
                  v.markerLine == Some(m) && (v.state.Dead? <==> BannerAfter(reader, reader.lines(pane.value), m)))
  {
    hide Banners, LastMarker, Beyond;
    if pane.Some? {
      var lines := reader.lines(pane.value);
      var banners := Banners(reader, lines);
      var marker := LastMarker(reader, lines);
      if marker.Some? {
        var below := Beyond(banners, marker.value);
        if below != [] {
          assert below[0] in below;
          assert BannerAfter(reader, lines, marker.value);
        }
        if BannerAfter(reader, lines, marker.value) {
          var i :| marker.value < i < |lines| && reader.banner(lines[i]);
          assert i in below;
        }
      }
    }
  }

  // ---- What two captures show -----------------------------------------------------------

  const MIN_OBSERVE := 60.0

  datatype Liveness = Live | IdleCandidate | Unobservable

  function Corroborate(before: Pane, after: Pane, observed: real): Liveness {
    if before.None? || after.None? then Unobservable
    else if observed < MIN_OBSERVE then Unobservable
    else if before != after then Live
    else IdleCandidate
  }

  /** What each auditor would let through. */
  datatype Auditors = Auditors(positional: Positional -> bool, liveness: Liveness -> bool)

  /** Neither shipped auditor lets anything through. */
  const SHIPPED := Auditors(_ => false, _ => false)

  // ---- One pass -------------------------------------------------------------------------

  datatype Roster = Roster(names: seq<string>, readable: bool)

  /** What one pass reads: two captures of every live session, the registry, and the order the matcher lists agents in. */
  datatype Fleet = Fleet(captures: map<string, (Pane, Pane)>, roster: Roster, order: seq<string>, interval: real, reader: Reader)

  /** Captured, or registered and so owed an answer. */
  predicate Observed(f: Fleet, name: string) { name in f.captures || name in f.roster.names }

  /** A registered agent nobody captured reads as two captures that failed. */
  function PanesOf(f: Fleet, name: string): (Pane, Pane) {
    if name in f.captures then f.captures[name] else (None, None)
  }

  ghost predicate Distinct(names: seq<string>) { forall i, j :: 0 <= i < j < |names| ==> names[i] != names[j] }

  lemma DistinctSnoc(names: seq<string>, last: string)
    ensures Distinct(names + [last]) <==> Distinct(names) && last !in names
  {
    var all := names + [last];
    if Distinct(all) {
      forall i | 0 <= i < |names| ensures names[i] != last {
        assert all[i] != all[|names|];
      }
      forall i, j | 0 <= i < j < |names| ensures names[i] != names[j] {
        assert all[i] != all[j];
      }
    }
  }

  /** The matcher lists every agent once. */
  ghost predicate Listed(f: Fleet) {
    && Distinct(f.order)
    && (forall n :: n in f.order <==> Observed(f, n))
  }

  datatype Bucket = Clean | AuthFailed | Unread

  function BucketOf(f: Fleet, name: string): Bucket {
    var panes := PanesOf(f, name);
    if panes.1.None? then Unread
    else if f.reader.stuck(panes.0, panes.1.value) then AuthFailed
    else Clean
  }

  function Within(f: Fleet, names: seq<string>, b: Bucket): (r: seq<string>)
    ensures forall n :: n in r <==> n in names && BucketOf(f, n) == b
  {
    if names == [] then []
    else
      var last := names[|names| - 1];
      Within(f, names[..|names| - 1], b) + (if BucketOf(f, last) == b then [last] else [])
  }

  datatype Finding = Unobserved | Did(verdict: RestartLog.Verdict)

  datatype Reason =
    | Historical | Unproven | PaneUnreadable | NoSession | RosterUnreadable
    | BudgetUnreadable | Debounce | OverBudget | PassCap | LoginExpired | RestartRaised | RestartReturnedFalse

  datatype Report = Report(name: string, finding: Finding, reason: Reason)

  const ROSTER_SUBJECT := "<fleet-roster>"
  function AdmissionReason(reader: Reader, after: Pane): (r: Reason)
    ensures r == Historical || r == Unproven
  {
    var p := ClassifyPositional(reader, after);
    if p.bannerLines != [] && p.bannersBelow == [] && p.markerLine.Some? then Historical else Unproven
  }

  /** A banner is called historical exactly when there is one and none follows the last marker. */
  lemma HistoricalMeaning(reader: Reader, after: Pane)
    ensures AdmissionReason(reader, after) == Historical <==>
            && after.Some?
            && (exists i :: 0 <= i < |reader.lines(after.value)| && reader.banner(reader.lines(after.value)[i]))
            && (exists m: nat :: IsLastMarker(reader, reader.lines(after.value), Some(m)) && !BannerAfter(reader, reader.lines(after.value), m))
  {
    if after.Some? {
      var lines := reader.lines(after.value);
      var banners, marker := Banners(reader, lines), LastMarker(reader, lines);
      hide Banners, LastMarker, Beyond;
      if i :| 0 <= i < |lines| && reader.banner(lines[i]) {
        assert i in banners;
      }
      if banners != [] { assert banners[0] in banners; }
      if marker.Some? {
        PositionalMeaning(reader, after, marker.value);
        var below := Beyond(banners, marker.value);
        if below != [] { assert below[0] in below; }
      }
    }
  }

  predicate Admitted(f: Fleet, rules: Auditors, name: string) {
    var panes := PanesOf(f, name);
    rules.positional(ClassifyPositional(f.reader, panes.1)) && rules.liveness(Corroborate(panes.0, panes.1, f.interval))
  }

  function AuditReport(f: Fleet, name: string): Report {
    Report(name, Unobserved, AdmissionReason(f.reader, PanesOf(f, name).1))
  }

  function UnreadReport(f: Fleet, name: string): Report {
    Report(name, Unobserved, if name in f.captures then PaneUnreadable else NoSession)
  }

  function RosterReports(f: Fleet): seq<Report> {
    if f.roster.readable then [] else [Report(ROSTER_SUBJECT, Unobserved, RosterUnreadable)]
  }

  function AuditReports(f: Fleet, names: seq<string>): (r: seq<Report>)
    ensures |r| == |names| && forall i :: 0 <= i < |r| ==> r[i] == AuditReport(f, names[i])
  {
    seq(|names|, i requires 0 <= i < |names| => AuditReport(f, names[i]))
  }

  function UnreadReports(f: Fleet, names: seq<string>): (r: seq<Report>)
    ensures |r| == |names| && forall i :: 0 <= i < |r| ==> r[i] == UnreadReport(f, names[i])
  {
    seq(|names|, i requires 0 <= i < |names| => UnreadReport(f, names[i]))
  }

  /** What the pass reports when nobody is admitted. */
  function Audit(f: Fleet): seq<Report> {
    AuditReports(f, Within(f, f.order, AuthFailed)) + RosterReports(f) + UnreadReports(f, Within(f, f.order, Unread))
  }

  // ---- The pass itself ------------------------------------------------------------------

  /** What the budget, the restart and the writes would do for the next admitted agent. */
  datatype Step = Step(
    id: string, allowance: RestartLog.Allowance, result: RestartLog.Result,
    sightingLands: bool, attemptLands: bool, outcomeLands: bool, saveLands: bool)

  function Bound(halted: bool, enforceable: bool, a: RestartLog.Allowance): RestartLog.Allowance {
    if !enforceable then RestartLog.BudgetUnreadable
    else if halted && a.Allowed? then RestartLog.OverPassCap
    else if a.BudgetUnreadable? then RestartLog.Debounced
    else a
  }

  function Admissions(f: Fleet, rules: Auditors, names: seq<string>): nat {
    if names == [] then 0
    else Admissions(f, rules, names[..|names| - 1]) + if Admitted(f, rules, names[|names| - 1]) then 1 else 0
  }

  lemma {:induction false} NobodyAdmitted(f: Fleet, rules: Auditors, names: seq<string>)
    ensures Admissions(f, rules, names) == 0 <==> forall n :: n in names ==> !Admitted(f, rules, n)
  {
    if names != [] {
      var n := |names| - 1;
      NobodyAdmitted(f, rules, names[..n]);
      assert names == names[..n] + [names[n]];
    }
  }

  function ReasonOf(v: RestartLog.Verdict, result: RestartLog.Result): Reason {
    match v
    case BudgetUnknown => BudgetUnreadable
    case CoolingDown => Debounce
    case OverBudget => Reason.OverBudget
    case Capped => PassCap
    case WouldRestart => LoginExpired
    case Restarted => LoginExpired
    case Failed => if result == RestartLog.Raised then RestartRaised else RestartReturnedFalse
  }

  /** The history file: how often it was written. */
  class History {
    var saves: nat

    constructor ()
      ensures saves == 0
    {
      saves := 0;
    }

    method Save(lands: bool)
      modifies this
      ensures saves == old(saves) + if lands then 1 else 0
    {
      if lands { saves := saves + 1; }
    }
  }

  /** One admitted agent: the sighting is logged, then the restart goes through the budget, then the history is saved. */
  method Attend(name: string, step: Step, halted: bool, enforceable: bool, apply: bool, log: RestartLog.AuthLog, history: History)
    returns (report: Report, stop: bool)
    requires step.id != ""
    modifies log, history
    ensures report.name == name && report.finding.Did?
    ensures old(log.spent) <= log.spent <= old(log.spent) + 1
    ensures !apply || !enforceable ==> log.spent == old(log.spent) && history.saves == old(history.saves)
    ensures halted ==> stop && log.spent == old(log.spent)
  {
    log.LogEvent(RestartLog.AuthEvent(RestartLog.FailureObserved, None, None), step.sightingLands);
    var allowance := Bound(halted, enforceable, step.allowance);
    var verdict := log.Perform(step.id, allowance, apply, step.result, step.attemptLands, step.outcomeLands);
    report := Report(name, Did(verdict), ReasonOf(verdict, step.result));
    stop := halted;
    if apply && enforceable && (verdict == RestartLog.Restarted || verdict == RestartLog.Failed) {
      history.Save(step.saveLands);
      stop := stop || !step.saveLands;
    }
  }

  /** Report `r` is about `name`, and is the audit's own unless the agent was admitted. */
  predicate ReportsOn(f: Fleet, rules: Auditors, r: Report, name: string) {
    r.name == name && (!Admitted(f, rules, name) ==> r == AuditReport(f, name))
  }

  /**
   * One pass over the fleet: every auth-failed agent leaves one report, in
   * order, then the registry if it could not be read, then every unread agent.
   * At most one restart per admission, none without `apply`; and when nobody is
   * admitted nothing is logged, restarted or saved.
   */
  method AuthHealPass(f: Fleet, rules: Auditors, apply: bool, enforceable: bool, plan: nat -> Step, finalSave: bool,
                      log: RestartLog.AuthLog, history: History)
    returns (reports: seq<Report>)
    requires forall k: nat :: plan(k).id != ""
    modifies log, history
    ensures var failed := Within(f, f.order, AuthFailed);
            && |failed| <= |reports|
            && reports[|failed|..] == RosterReports(f) + UnreadReports(f, Within(f, f.order, Unread))
            && (forall i :: 0 <= i < |failed| ==> ReportsOn(f, rules, reports[i], failed[i]))
            && old(log.spent) <= log.spent <= old(log.spent) + Admissions(f, rules, failed)
            && (Admissions(f, rules, failed) == 0 ==> log.log == old(log.log) && history.saves == old(history.saves))
    ensures !apply || !enforceable ==> log.spent == old(log.spent) && history.saves == old(history.saves)
  {
    var failed, unread := Within(f, f.order, AuthFailed), Within(f, f.order, Unread);
    hide Within, PanesOf, BucketOf, Admitted, AuditReport, RosterReports, UnreadReports;
    var read, halted := false, false;
    reports := [];
    for i := 0 to |failed|
      invariant |reports| == i
      invariant forall k :: 0 <= k < i ==> ReportsOn(f, rules, reports[k], failed[k])
      invariant old(log.spent) <= log.spent <= old(log.spent) + Admissions(f, rules, failed[..i])
      invariant Admissions(f, rules, failed[..i]) == 0 ==> log.log == old(log.log) && history.saves == old(history.saves) && !read
      invariant !apply || !enforceable ==> log.spent == old(log.spent) && history.saves == old(history.saves)
    {
      var name := failed[i];
      assert failed[..i + 1][..i] == failed[..i];
      if Admitted(f, rules, name) {
        read := true;
        var report;
        report, halted := Attend(name, plan(i), halted, enforceable, apply, log, history);
        reports := reports + [report];
      } else {
        AuditReportNames(f, name);
        reports := reports + [AuditReport(f, name)];
      }
    }
    assert failed[..|failed|] == failed;
    if apply && read && enforceable { history.Save(finalSave); }
    reports := reports + (RosterReports(f) + UnreadReports(f, unread));
  }

  lemma AuditReportNames(f: Fleet, name: string)
    ensures AuditReport(f, name).name == name
  {
  }

  /**
   * With the auditors as shipped, no input whatever makes the pass restart an
   * agent, spend or save its restart history, or write to the restart log.
   */
  method ScheduledPass(f: Fleet, apply: bool, enforceable: bool, plan: nat -> Step, finalSave: bool,
                       log: RestartLog.AuthLog, history: History)
    returns (reports: seq<Report>)
    requires forall k: nat :: plan(k).id != ""
    modifies log, history
    ensures reports == Audit(f)
    ensures log.log == old(log.log) && log.spent == old(log.spent) && history.saves == old(history.saves)
  {
    var failed := Within(f, f.order, AuthFailed);
    assert forall n :: n in failed ==> !Admitted(f, SHIPPED, n);
    NobodyAdmitted(f, SHIPPED, failed);
    assert Admissions(f, SHIPPED, failed) == 0;
    hide Within, PanesOf, BucketOf, Admitted, AuditReport, RosterReports, UnreadReports, Admissions;
    reports := AuthHealPass(f, SHIPPED, apply, enforceable, plan, finalSave, log, history);
    assert reports[..|failed|] == AuditReports(f, failed);
    assert reports == reports[..|failed|] + reports[|failed|..];
  }

  // ---- Who is reported ------------------------------------------------------------------

  /** How many of the reports are about this agent. */
  function About(reports: seq<Report>, name: string): nat {
    if reports == [] then 0
    else
      var r := reports[|reports| - 1];
      About(reports[..|reports| - 1], name) + if r.name == name && r.reason != RosterUnreadable then 1 else 0
  }

  lemma {:induction false} AboutAppend(a: seq<Report>, b: seq<Report>, name: string)
    ensures About(a + b, name) == About(a, name) + About(b, name)
  {
    if b == [] {
      assert a + b == a;
    } else {
      var n := |b| - 1;
      AboutAppend(a, b[..n], name);
      assert (a + b)[..|a + b| - 1] == a + b[..n];
    }
  }

  lemma {:induction false} OncePerName(reports: seq<Report>, names: seq<string>, name: string)
    requires |reports| == |names| && Distinct(names)
    requires forall i :: 0 <= i < |names| ==> reports[i].name == names[i] && reports[i].reason != RosterUnreadable
    ensures About(reports, name) == if name in names then 1 else 0
  {
    if names != [] {
      var n := |names| - 1;
      assert names == names[..n] + [names[n]];
      DistinctSnoc(names[..n], names[n]);
      hide Distinct;
      OncePerName(reports[..n], names[..n], name);
    }
  }

  lemma {:induction false} WithinIsDistinct(f: Fleet, names: seq<string>, b: Bucket)
    requires Distinct(names)
    ensures Distinct(Within(f, names, b))
  {
    if names != [] {
      var n := |names| - 1;
      assert names == names[..n] + [names[n]];
      DistinctSnoc(names[..n], names[n]);
      DistinctSnoc(Within(f, names[..n], b), names[n]);
      hide Distinct, BucketOf;
      WithinIsDistinct(f, names[..n], b);
      if BucketOf(f, names[n]) != b {
        assert Within(f, names, b) == Within(f, names[..n], b);
      }
    }
  }

  /** Every captured or registered agent is in the clean bucket and unreported, or has exactly one report; nobody else has any. */
  lemma ExactlyOneReport(f: Fleet, name: string)
    requires Listed(f)
    ensures About(Audit(f), name) == if Observed(f, name) && BucketOf(f, name) != Clean then 1 else 0
  {
    var failed, unread := Within(f, f.order, AuthFailed), Within(f, f.order, Unread);
    var a, r, u := AuditReports(f, failed), RosterReports(f), UnreadReports(f, unread);
    WithinIsDistinct(f, f.order, AuthFailed);
    WithinIsDistinct(f, f.order, Unread);
    assert About(r, name) == 0 by { assert r == [] || r[..0] == []; }
    hide Within, BucketOf, About, PanesOf, RosterReports;
    OncePerName(a, failed, name);
    OncePerName(u, unread, name);
    AboutAppend(a, r, name);
    AboutAppend(a + r, u, name);
  }

  // ---- What the exit code claims --------------------------------------------------------

  predicate Indeterminate(r: Report) { r.finding.Unobserved? && r.reason != NoSession }

  function ExitCode(reports: seq<Report>): int {
    if exists r :: r in reports && (r.finding == Did(RestartLog.BudgetUnknown) || Indeterminate(r)) then 2
    else if exists r :: r in reports && r.finding.Did? && r.finding.verdict != RestartLog.Restarted then 1
    else 0
  }

  predicate Undetermined(reports: seq<Report>) { exists r :: r in reports && Indeterminate(r) }

  lemma BannersAreUndetermined(f: Fleet, failed: seq<string>)
    ensures Undetermined(AuditReports(f, failed)) <==> failed != []
  {
    var a := AuditReports(f, failed);
    hide AdmissionReason;
    if failed != [] { assert a[0] in a; }
  }

  lemma UnreadAreUndetermined(f: Fleet, unread: seq<string>)
    ensures Undetermined(UnreadReports(f, unread)) <==> exists n :: n in unread && n in f.captures
  {
    var u := UnreadReports(f, unread);
    if n :| n in unread && n in f.captures {
      var i :| 0 <= i < |unread| && unread[i] == n;
      assert u[i] in u;
    }
    if x :| x in u && Indeterminate(x) {
      var i :| 0 <= i < |u| && u[i] == x;
      assert unread[i] in unread;
    }
  }

  lemma AuditOnlyObserves(f: Fleet)
    ensures forall r :: r in Audit(f) ==> r.finding.Unobserved?
    ensures Undetermined(Audit(f)) <==>
            || Undetermined(AuditReports(f, Within(f, f.order, AuthFailed)))
            || !f.roster.readable
            || Undetermined(UnreadReports(f, Within(f, f.order, Unread)))
  {
    var a, r, u := AuditReports(f, Within(f, f.order, AuthFailed)), RosterReports(f), UnreadReports(f, Within(f, f.order, Unread));
    hide Within, AdmissionReason;
    assert Audit(f) == a + r + u;
    assert forall x :: x in a + r + u <==> x in a || x in r || x in u;
    if !f.roster.readable { assert r[0] in r; }
  }

  /**
   * Exit 0 exactly when the registry was read, no agent's banner was frozen, and
   * every agent left unread has no live session; everything else is 2, because a
   * pass that may act on nothing can never report a confirmed failure.
   */
  lemma ExitCodeMeaning(f: Fleet)
    requires Listed(f)
    ensures ExitCode(Audit(f)) == 0 <==>
            && f.roster.readable
            && forall n :: Observed(f, n) ==> BucketOf(f, n) != AuthFailed && (BucketOf(f, n) == Unread ==> n !in f.captures)
    ensures ExitCode(Audit(f)) == 0 || ExitCode(Audit(f)) == 2
  {
    var failed, unread := Within(f, f.order, AuthFailed), Within(f, f.order, Unread);
    AuditOnlyObserves(f);
    BannersAreUndetermined(f, failed);
    UnreadAreUndetermined(f, unread);
    hide Within, Audit, BucketOf, AuditReports, UnreadReports, Observed;
    assert ExitCode(Audit(f)) == if Undetermined(Audit(f)) then 2 else 0;
    if failed != [] { assert failed[0] in failed; }
  }
}
