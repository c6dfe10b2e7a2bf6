/** Properties of findings over every run of reconciliations and operator actions. */
module FindingRuns {
  import opened Wrappers
  import opened Domain
  import opened Findings
  import EngineSpec
  import EngineProperties

  datatype Step = Reconcile(run: Run) | Act(action: Action)

  function Apply(rows: Rows, step: Step): Rows {
    match step
    case Reconcile(run) => AfterRun(rows, run)
    case Act(action) => AfterAction(rows, action)
  }

  /** The findings after a run that starts from an empty store. */
  function After(steps: seq<Step>): Rows {
    if steps == [] then map[] else Apply(After(steps[..|steps| - 1]), steps[|steps| - 1])
  }

  // ----- the event log -----

  predicate Reopens(e: Event) { e.kind in {WasOpened, WasReopened} }

  function Openings(events: seq<Event>): nat {
    if events == [] then 0
    else Openings(events[..|events| - 1]) + (if Reopens(events[|events| - 1]) then 1 else 0)
  }

  /** The log starts from provisional, each event continues the one before, and the last is the current state. */
  ghost predicate Chained(events: seq<Event>, state: State) {
    && events != [] && events[0].previous == Provisional
    && (forall i :: 0 < i < |events| ==> events[i].previous == events[i - 1].current)
    && events[|events| - 1].current == state
  }

  ghost predicate LogSound(f: Finding) {
    && Chained(f.events, f.state)
    && f.occurrences == Openings(f.events)
    && (f.state == Suppressed ==> f.suppressedUntil.Some?)
  }

  lemma OpeningsAppend(events: seq<Event>, e: Event)
    ensures Openings(events + [e]) == Openings(events) + (if Reopens(e) then 1 else 0)
  {
    assert (events + [e])[..|events|] == events;
  }

  lemma ChainAppend(events: seq<Event>, state: State, e: Event)
    requires Chained(events, state) && e.previous == state
    ensures Chained(events + [e], e.current)
  {
  }

  lemma LogAppend(f: Finding, g: Finding, e: Event)
    requires LogSound(f) && e.previous == f.state && g.events == f.events + [e] && g.state == e.current
    requires g.occurrences == f.occurrences + if Reopens(e) then 1 else 0
    requires g.state == Suppressed ==>
               g.suppressedUntil.Some? || (f.state == Suppressed && g.suppressedUntil == f.suppressedUntil)
    ensures LogSound(g)
  {
    OpeningsAppend(f.events, e);
    ChainAppend(f.events, f.state, e);
  }

  lemma LogStarts(g: Finding, e: Event)
    requires g.events == [e] && e.previous == Provisional && e.current == g.state && g.state != Suppressed
    requires g.occurrences == if Reopens(e) then 1 else 0
    ensures LogSound(g)
  {
    OpeningsAppend([], e);
    assert [] + [e] == [e];
  }

  lemma LogUnchanged(f: Finding, g: Finding)
    requires LogSound(f) && g.events == f.events && g.state == f.state && g.occurrences == f.occurrences
    requires g.suppressedUntil == f.suppressedUntil
    ensures LogSound(g)
  {
  }

  lemma ProposedLog(prior: Option<Finding>, q: Proposal, now: Time)
    requires prior.Some? ==> LogSound(prior.value)
    ensures LogSound(Proposed(prior, q, now))
  {
    hide LogSound, Substantive;
    var f, g := prior.GetOr(NewFinding(q, now)), Proposed(prior, q, now);
    if prior.None? {
      LogStarts(g, g.events[0]);
    } else if |g.events| == |f.events| {
      LogUnchanged(f, g);
    } else {
      LogAppend(f, g, g.events[|f.events|]);
    }
  }

  lemma AbsentLog(f: Finding, run: Run)
    requires LogSound(f)
    ensures LogSound(Absent(f, run))
  {
    hide LogSound, SpeaksFor;
    var g := Absent(f, run);
    if |g.events| == |f.events| {
      LogUnchanged(f, g);
    } else {
      LogAppend(f, g, g.events[|f.events|]);
    }
  }

  lemma ActedLog(f: Finding, a: Action)
    requires LogSound(f) && Refusal(f, a).None?
    ensures LogSound(Acted(f, a))
  {
    hide LogSound;
    var g := Acted(f, a);
    LogAppend(f, g, g.events[|f.events|]);
  }

  ghost predicate AllSound(rows: Rows) {
    forall key :: key in rows ==> LogSound(rows[key])
  }

  lemma {:induction false} ProposalsLog(rows: Rows, qs: seq<Proposal>, now: Time)
    requires AllSound(rows)
    ensures AllSound(AfterProposals(rows, qs, now))
  {
    hide LogSound, Proposed;
    if qs != [] {
      var q := qs[|qs| - 1];
      ProposalsLog(rows, qs[..|qs| - 1], now);
      ProposedLog(Lookup(AfterProposals(rows, qs[..|qs| - 1], now), q.key), q, now);
    }
  }

  lemma StepLog(rows: Rows, step: Step)
    requires AllSound(rows)
    ensures AllSound(Apply(rows, step))
  {
    hide LogSound, Absent, Acted;
    match step
    case Act(a) => if Accepts(rows, a) { ActedLog(rows[a.key], a); }
    case Reconcile(run) =>
      ProposalsLog(rows, run.result.proposals, run.now);
      var proposed := AfterProposals(rows, run.result.proposals, run.now);
      forall key | key in proposed ensures LogSound(Swept(proposed[key], run)) { AbsentLog(proposed[key], run); }
  }

  /** In every run, every finding's log tells its whole history of states. */
  lemma {:induction false} EventLogsSound(steps: seq<Step>)
    ensures AllSound(After(steps))
  {
    if steps != [] {
      EventLogsSound(steps[..|steps| - 1]);
      StepLog(After(steps[..|steps| - 1]), steps[|steps| - 1]);
    }
  }

  // ----- versions and append-only growth -----

  /** Unchanged, or written: a later version with the same subject and a log that extends the earlier one. */
  ghost predicate Grows(f: Finding, g: Finding) {
    f == g
    || (g.lockVersion > f.lockVersion && f.events <= g.events && g.key == f.key && g.rule == f.rule
        && g.identities == f.identities)
  }

  lemma ProposedGrows(f: Finding, q: Proposal, now: Time)
    ensures Grows(f, Proposed(Some(f), q, now))
  {
  }

  lemma SweptGrows(f: Finding, run: Run)
    ensures Grows(f, Swept(f, run))
  {
  }

  lemma ActedGrows(f: Finding, a: Action)
    ensures Grows(f, Acted(f, a)) && Acted(f, a).lockVersion == f.lockVersion + 1
  {
  }

  lemma {:induction false} ProposalsGrow(rows: Rows, qs: seq<Proposal>, now: Time, key: string)
    requires key in rows
    ensures key in AfterProposals(rows, qs, now) && Grows(rows[key], AfterProposals(rows, qs, now)[key])
  {
    hide Proposed;
    if qs != [] {
      ProposalsGrow(rows, qs[..|qs| - 1], now, key);
      ProposedGrows(AfterProposals(rows, qs[..|qs| - 1], now)[key], qs[|qs| - 1], now);
    }
  }

  lemma StepGrows(rows: Rows, step: Step, key: string)
    requires key in rows
    ensures key in Apply(rows, step) && Grows(rows[key], Apply(rows, step)[key])
  {
    hide Absent, Acted;
    match step
    case Act(a) => if key == a.key { ActedGrows(rows[key], a); }
    case Reconcile(run) =>
      ProposalsGrow(rows, run.result.proposals, run.now, key);
      SweptGrows(AfterProposals(rows, run.result.proposals, run.now)[key], run);
  }

  /** Findings are never removed; each write raises the version and extends the log. */
  lemma {:induction false} HistoryGrows(steps: seq<Step>, i: nat, key: string)
    requires i <= |steps| && key in After(steps[..i])
    ensures key in After(steps) && Grows(After(steps[..i])[key], After(steps)[key])
  {
    hide Apply;
    if i == |steps| {
      assert steps[..i] == steps;
    } else {
      var init := steps[..|steps| - 1];
      assert init[..i] == steps[..i];
      HistoryGrows(init, i, key);
      StepGrows(After(init), steps[|steps| - 1], key);
    }
  }

  ghost predicate AcceptedAt(steps: seq<Step>, i: nat, key: string) {
    && i < |steps| && steps[i].Act? && steps[i].action.key == key
    && Accepts(After(steps[..i]), steps[i].action)
  }

  /** Of the operator actions on one finding, each accepted one names a later version than those before. */
  lemma OneActionPerVersion(steps: seq<Step>, i: nat, j: nat, key: string)
    requires i < j && AcceptedAt(steps, i, key) && AcceptedAt(steps, j, key)
    ensures steps[i].action.version < steps[j].action.version
  {
    hide Grows, Acted;
    var first, later := steps[..i + 1], steps[..j];
    assert first[..i] == steps[..i] && later[..i + 1] == first;
    ActedGrows(After(steps[..i])[key], steps[i].action);
    HistoryGrows(later, i + 1, key);
    VersionsOrdered(After(first)[key], After(later)[key]);
  }

  lemma VersionsOrdered(f: Finding, g: Finding)
    requires Grows(f, g)
    ensures f.lockVersion <= g.lockVersion
  {
  }

  // ----- resolution needs an unbroken clean streak -----

  /** The step does not speak against the finding: no proposal, no silence about its rule, no operator resolution. */
  ghost predicate Calm(steps: seq<Step>, m: nat, f: Finding)
    requires m < |steps|
  {
    match steps[m]
    case Reconcile(run) => run.shadow || (f.key !in ProposedKeys(run) && SpeaksFor(run, f))
    case Act(a) => !(a.name == "resolve" && a.key == f.key && Accepts(After(steps[..m]), a))
  }

  /** Since reconciliation `j`, at time `since` with these coverage boundaries, every step was calm. */
  ghost predicate CleanStreak(steps: seq<Step>, j: nat, f: Finding, since: Time, boundaries: Boundaries) {
    && j < |steps| && steps[j].Reconcile? && !steps[j].run.shadow
    && steps[j].run.now == since && steps[j].run.boundaries == boundaries
    && (forall m :: j <= m < |steps| ==> Calm(steps, m, f))
  }

  ghost predicate SameSubject(f: Finding, g: Finding) {
    f.key == g.key && f.rule == g.rule && f.identities == g.identities
  }

  lemma StreakExtends(steps: seq<Step>, j: nat, f: Finding, g: Finding, since: Time, boundaries: Boundaries)
    requires |steps| > 0 && CleanStreak(steps[..|steps| - 1], j, f, since, boundaries) && SameSubject(f, g)
    requires Calm(steps, |steps| - 1, g)
    ensures CleanStreak(steps, j, g, since, boundaries)
  {
    var init := steps[..|steps| - 1];
    forall m | j <= m < |steps| - 1 ensures Calm(steps, m, g) {
      assert init[..m] == steps[..m] && init[m] == steps[m];
      assert Calm(init, m, f);
    }
  }

  lemma {:induction false} UnproposedUntouched(rows: Rows, qs: seq<Proposal>, now: Time, key: string)
    requires forall q :: q in qs ==> q.key != key
    ensures key in AfterProposals(rows, qs, now) <==> key in rows
    ensures key in rows ==> AfterProposals(rows, qs, now)[key] == rows[key]
  {
    hide Proposed;
    if qs != [] {
      UnproposedUntouched(rows, qs[..|qs| - 1], now, key);
      assert qs[|qs| - 1] in qs;
    }
  }

  lemma ProposedCleared(prior: Option<Finding>, q: Proposal, now: Time)
    requires prior.Some? ==> prior.value.key == q.key
    ensures var g := Proposed(prior, q, now);
      g.key == q.key && g.cleanSince.None? && (g.state == Resolved ==> prior.Some? && prior.value.state == Resolved)
  {
  }

  ghost predicate OwnKeys(rows: Rows) { forall key :: key in rows ==> rows[key].key == key }

  lemma {:induction false} KeysStay(rows: Rows, qs: seq<Proposal>, now: Time)
    requires OwnKeys(rows)
    ensures OwnKeys(AfterProposals(rows, qs, now))
  {
    hide Proposed;
    if qs != [] {
      var q := qs[|qs| - 1];
      KeysStay(rows, qs[..|qs| - 1], now);
      ProposedCleared(Lookup(AfterProposals(rows, qs[..|qs| - 1], now), q.key), q, now);
    }
  }

  lemma {:induction false} ProposedIsUnclean(rows: Rows, qs: seq<Proposal>, now: Time, key: string)
    requires OwnKeys(rows) && exists q :: q in qs && q.key == key
    ensures var after := AfterProposals(rows, qs, now);
      key in after && after[key].cleanSince.None?
      && (after[key].state == Resolved ==> key in rows && rows[key].state == Resolved)
  {
    hide Proposed;
    var init, last := qs[..|qs| - 1], qs[|qs| - 1];
    KeysStay(rows, init, now);
    ProposedCleared(Lookup(AfterProposals(rows, init, now), last.key), last, now);
    if exists q :: q in init && q.key == key {
      ProposedIsUnclean(rows, init, now, key);
    } else {
      UnproposedUntouched(rows, init, now, key);
      var q :| q in qs && q.key == key;
      assert q == last || q in init;
    }
  }

  lemma {:induction false} HistoryKeys(steps: seq<Step>)
    ensures OwnKeys(After(steps))
  {
    hide Absent, Acted;
    if steps != [] {
      var init, last := steps[..|steps| - 1], steps[|steps| - 1];
      HistoryKeys(init);
      match last
      case Act(a) => if Accepts(After(init), a) { ActedGrows(After(init)[a.key], a); }
      case Reconcile(run) =>
        KeysStay(After(init), run.result.proposals, run.now);
        var proposed := AfterProposals(After(init), run.result.proposals, run.now);
        forall key | key in proposed ensures Swept(proposed[key], run).key == key { SweptGrows(proposed[key], run); }
    }
  }

  lemma ActNeverResolves(rows: Rows, a: Action, key: string)
    requires key in AfterAction(rows, a) && AfterAction(rows, a)[key].state == Resolved
    ensures key in rows && rows[key].state == Resolved
  {
  }

  /** What one reconciliation does to a finding it did not propose. */
  lemma RunOnAbsent(rows: Rows, run: Run, key: string)
    requires OwnKeys(rows)
    requires !run.shadow && key !in ProposedKeys(run)
    ensures key in AfterRun(rows, run) <==> key in rows
    ensures key in rows ==>
      AfterRun(rows, run)[key] == if rows[key].state == Resolved then rows[key] else Absent(rows[key], run)
  {
    hide Absent, Proposed;
    forall q | q in run.result.proposals ensures q.key != key { assert q.key in ProposedKeys(run); }
    UnproposedUntouched(rows, run.result.proposals, run.now, key);
  }

  lemma RunOnProposed(rows: Rows, run: Run, key: string)
    requires OwnKeys(rows)
    requires !run.shadow && key in ProposedKeys(run)
    ensures key in AfterRun(rows, run) && AfterRun(rows, run)[key].cleanSince.None?
    ensures AfterRun(rows, run)[key].state == Resolved ==> key in rows && rows[key].state == Resolved
  {
    hide Absent, AfterProposals;
    var q :| q in run.result.proposals && q.key == key;
    ProposedIsUnclean(rows, run.result.proposals, run.now, key);
    KeysStay(rows, run.result.proposals, run.now);
    assert AfterProposals(rows, run.result.proposals, run.now)[key].key == key;
  }

  /** A running clean period always has a streak behind it. */
  lemma {:induction false} StreakBehindCleanSince(steps: seq<Step>, key: string) returns (j: nat)
    requires key in After(steps)
    requires After(steps)[key].state != Resolved && After(steps)[key].cleanSince.Some?
    ensures var f := After(steps)[key]; CleanStreak(steps, j, f, f.cleanSince.value, f.cleanBoundaries)
  {
    hide AfterRun;
    var init, last := steps[..|steps| - 1], steps[|steps| - 1];
    var rows, f := After(init), After(steps)[key];
    HistoryKeys(init);
    match last
    case Act(a) =>
      assert key in rows && SameSubject(rows[key], f) && f.cleanSince == rows[key].cleanSince;
      j := StreakBehindCleanSince(init, key);
      StreakExtends(steps, j, rows[key], f, f.cleanSince.value, f.cleanBoundaries);
    case Reconcile(run) =>
      if run.shadow {
        assert AfterRun(rows, run) == rows by { ShadowRun(rows, run); }
        j := StreakBehindCleanSince(init, key);
        StreakExtends(steps, j, f, f, f.cleanSince.value, f.cleanBoundaries);
      } else if key in ProposedKeys(run) {
        RunOnProposed(rows, run, key);
      } else {
        RunOnAbsent(rows, run, key);
        if rows[key].cleanSince.None? {
          j := |steps| - 1;
        } else {
          j := StreakBehindCleanSince(init, key);
          StreakExtends(steps, j, rows[key], f, f.cleanSince.value, f.cleanBoundaries);
        }
      }
  }

  lemma ShadowRun(rows: Rows, run: Run)
    requires run.shadow
    ensures AfterRun(rows, run) == rows
  {
  }

  /**
   A finding becomes resolved only in a reconciliation, and only when an earlier reconciliation, at least five minutes
   before, began a streak in which every reconciliation evaluated its rule, proposed it not, and held back none of its
   identities, with no operator resolution in between. PI-009 also needs the coverage boundaries to have moved.
   */
  lemma ResolvedOnlyAfterCleanStreak(steps: seq<Step>, key: string) returns (j: nat)
    requires |steps| > 0 && key in After(steps) && After(steps)[key].state == Resolved
    requires key in After(steps[..|steps| - 1]) ==> After(steps[..|steps| - 1])[key].state != Resolved
    ensures var last, f := steps[|steps| - 1], After(steps)[key];
      && last.Reconcile? && !last.run.shadow && j < |steps| - 1
      && steps[j].Reconcile? && last.run.now - steps[j].run.now >= CLEAN_SECONDS
      && (f.rule == PI009 ==> steps[j].run.boundaries != last.run.boundaries)
      && CleanStreak(steps, j, f, steps[j].run.now, steps[j].run.boundaries)
  {
    hide AfterRun;
    var init, last := steps[..|steps| - 1], steps[|steps| - 1];
    var rows, f := After(init), After(steps)[key];
    HistoryKeys(init);
    match last
    case Act(a) => ActNeverResolves(rows, a, key);
    case Reconcile(run) =>
      if run.shadow {
        ShadowRun(rows, run);
      } else if key in ProposedKeys(run) {
        RunOnProposed(rows, run, key);
      } else {
        RunOnAbsent(rows, run, key);
        j := StreakBehindCleanSince(init, key);
        StreakExtends(steps, j, rows[key], f, rows[key].cleanSince.value, rows[key].cleanBoundaries);
      }
  }

  /** No stale-coverage or unverified-link reconciliation can belong to the streak of a financial finding. */
  lemma StreakRunsAreTrusted(run: Run, f: Finding, s: Snapshot, codec: Codec)
    requires EngineSpec.Answer(s, codec) == Ok(run.result) && f.rule in EngineProperties.FINANCIAL && SpeaksFor(run, f)
    ensures EngineSpec.Stale(EngineSpec.ViewOf(s, codec)) == {} && s.linkVerified && !s.linkConflict
    ensures f.rule !in s.policy.disabledRules
  {
    hide EngineSpec.Answer, EngineSpec.Stale, EngineSpec.ViewOf;
    assert f.rule != PI009 && f.rule != PI010;
    EngineProperties.EvaluatedRulesGate(s, codec, run.result, f.rule);
  }
}
