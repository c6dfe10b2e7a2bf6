/**
 The finding lifecycle: engine results and operator actions move each finding between states, and every change of
 state is written to the finding's append-only event log. One store is modelled; a row carries its own events.
 */
module Findings {
  import opened Wrappers
  import opened Money
  import opened Domain

  datatype State = Provisional | Open | Acknowledged | Suppressed | Resolved | Reopened

  datatype EventKind = Observed | WasOpened | WasReopened | WasUnsuppressed | WasResolved | ActionTaken(name: string)

  datatype Event = Event(kind: EventKind, actor: string, previous: State, current: State, note: string)

  /** The covered-through boundary of each source: what the coverage digest hashes. */
  type Boundaries = seq<(string, Time)>

  datatype Finding = Finding(
    key: string, rule: Rule, severity: string, identities: seq<string>, state: State, risk: Option<Money>,
    confidence: nat, firstSeen: Time, lastSeen: Time, eligibleAt: Time, occurrences: nat, evidence: Evidence,
    suppressedUntil: Option<Time>, cleanSince: Option<Time>, cleanBoundaries: Boundaries, resolvedAt: Option<Time>,
    lockVersion: nat, updatedAt: Time, events: seq<Event>)

  type Rows = map<string, Finding>

  /** One reconciliation of the store: what the engine returned, and when. */
  datatype Run = Run(now: Time, result: Evaluation, boundaries: Boundaries, shadow: bool)

  const CLEAN_SECONDS := 300
  const SUPPRESSION_SECONDS := 7 * 86400

  /** The evidence apart from coverage; a change here is worth an event. */
  function Substantive(e: Evidence): (nat, Facts) { (e.policyVersion, e.facts) }

  function NewFinding(q: Proposal, now: Time): Finding {
    Finding(q.key, q.rule, q.severity, q.identities, Provisional, q.risk, q.confidence, now, now, q.eligibleAt, 0,
      q.evidence, None, None, [], None, 0, now, [])
  }

  function WithEvent(f: Finding, kind: EventKind, previous: State, actor: string, note: string): Finding {
    f.(events := f.events + [Event(kind, actor, previous, f.state, note)])
  }

  /** The finding with what the proposal says about it, before any change of state. */
  function Refreshed(f: Finding, q: Proposal, now: Time): Finding {
    f.(evidence := q.evidence, risk := q.risk, confidence := q.confidence, lastSeen := now, eligibleAt := q.eligibleAt,
      cleanSince := None, cleanBoundaries := [], updatedAt := now, lockVersion := f.lockVersion + 1)
  }

  /** A finding that the engine proposes again, or for the first time. */
  function Proposed(prior: Option<Finding>, q: Proposal, now: Time): Finding {
    var f := prior.GetOr(NewFinding(q, now));
    var g := Refreshed(f, q, now);
    if q.ready && f.state == Provisional then
      WithEvent(g.(state := Open, occurrences := f.occurrences + 1), WasOpened, f.state, "system", "")
    else if q.ready && f.state == Resolved then
      WithEvent(g.(state := Reopened, occurrences := f.occurrences + 1, resolvedAt := None), WasReopened, f.state,
        "system", "")
    else if q.ready && f.state == Suppressed && f.suppressedUntil.Some? && f.suppressedUntil.value <= now then
      WithEvent(g.(state := Open, suppressedUntil := None), WasUnsuppressed, f.state, "system", "")
    else if prior.None? || Substantive(f.evidence) != Substantive(q.evidence) then
      WithEvent(g, Observed, f.state, "system", "")
    else g
  }

  /** The run can speak for the absence of the finding: its rule was evaluated and no identity was held back. */
  predicate SpeaksFor(run: Run, f: Finding) {
    f.rule in run.result.evaluatedRules && forall i :: i in f.identities ==> i !in run.result.blocked
  }

  /** An unresolved finding that the run did not propose. */
  function Absent(f: Finding, run: Run): Finding {
    if !SpeaksFor(run, f) then
      if f.cleanSince.None? then f
      else f.(cleanSince := None, cleanBoundaries := [], lockVersion := f.lockVersion + 1, updatedAt := run.now)
    else
      var g := f.(lockVersion := f.lockVersion + 1, updatedAt := run.now);
      if f.cleanSince.None? then g.(cleanSince := Some(run.now), cleanBoundaries := run.boundaries)
      else if run.now - f.cleanSince.value >= CLEAN_SECONDS
        && (f.rule != PI009 || f.cleanBoundaries != run.boundaries)
      then WithEvent(g.(state := Resolved, resolvedAt := Some(run.now)), WasResolved, f.state, "system", "")
      else g
  }

  function ProposedKeys(run: Run): set<string> { set q | q in run.result.proposals :: q.key }

  function Lookup(rows: Rows, key: string): Option<Finding> { if key in rows then Some(rows[key]) else None }

  function AfterProposals(rows: Rows, qs: seq<Proposal>, now: Time): Rows {
    if qs == [] then rows
    else
      var before := AfterProposals(rows, qs[..|qs| - 1], now);
      var q := qs[|qs| - 1];
      before[q.key := Proposed(Lookup(before, q.key), q, now)]
  }

  function Swept(f: Finding, run: Run): Finding {
    if f.state == Resolved || f.key in ProposedKeys(run) then f else Absent(f, run)
  }

  function AfterRun(rows: Rows, run: Run): Rows {
    if run.shadow then rows
    else
      var proposed := AfterProposals(rows, run.result.proposals, run.now);
      map key | key in proposed :: Swept(proposed[key], run)
  }

  // ----- operator actions -----

  datatype Action = Action(
    key: string, actor: string, name: string, version: nat, note: string, until: Option<Time>, now: Time)

  datatype Problem =
    | NotFound
    | VersionConflict
    | InvalidAction
    | InvalidTransition
    | SuppressionReasonAndExpiryRequired
    | NoteRequired

  predicate IsBlank(note: string) {
    forall c :: c in note ==> c == ' ' || '\t' <= c <= '\r' || '\U{1c}' <= c <= '\U{1f}'
  }

  function Refusal(f: Finding, a: Action): Option<Problem> {
    if f.lockVersion != a.version then Some(VersionConflict)
    else if a.name !in {"acknowledge", "suppress", "resolve", "note"} then Some(InvalidAction)
    else if a.name == "acknowledge" && f.state !in {Open, Reopened, Acknowledged} then Some(InvalidTransition)
    else if a.name == "suppress" && f.state !in {Open, Reopened, Acknowledged, Suppressed} then Some(InvalidTransition)
    else if a.name == "suppress"
      && (IsBlank(a.note) || a.until.None? || !(a.now < a.until.value <= a.now + SUPPRESSION_SECONDS))
      then Some(SuppressionReasonAndExpiryRequired)
    else if a.name in {"resolve", "note"} && IsBlank(a.note) then Some(NoteRequired)
    else None
  }

  function Truncated(note: string): string { if |note| <= 1000 then note else note[..1000] }

  function Acted(f: Finding, a: Action): Finding {
    var g := f.(lockVersion := f.lockVersion + 1, updatedAt := a.now);
    var h :=
      if a.name == "acknowledge" then g.(state := Acknowledged)
      else if a.name == "suppress" then g.(state := Suppressed, suppressedUntil := a.until)
      else if a.name == "resolve" then g.(cleanSince := None)
      else g;
    WithEvent(h, ActionTaken(if a.name == "resolve" then "external_resolution_requested" else a.name), f.state, a.actor,
      Truncated(a.note))
  }

  predicate Accepts(rows: Rows, a: Action) { a.key in rows && Refusal(rows[a.key], a).None? }

  function AfterAction(rows: Rows, a: Action): Rows {
    if Accepts(rows, a) then rows[a.key := Acted(rows[a.key], a)] else rows
  }

  // ----- the service -----

  class FindingService {
    var rows: Rows

    constructor ()
      ensures rows == map[]
    {
      rows := map[];
    }

    /** Every row is stored under its own key. */
    ghost predicate Valid()
      reads this
    {
      forall key :: key in rows ==> rows[key].key == key
    }

    method Observe(q: Proposal, now: Time)
      modifies this
      ensures rows == old(rows)[q.key := Proposed(Lookup(old(rows), q.key), q, now)]
    {
      var created := q.key !in rows;
      var finding := if created then NewFinding(q, now) else rows[q.key];
      var previous := finding.state;
      var changed := Substantive(finding.evidence) != Substantive(q.evidence);
      finding := finding.(evidence := q.evidence, risk := q.risk, confidence := q.confidence);
      finding := finding.(lastSeen := now, eligibleAt := q.eligibleAt, cleanSince := None, cleanBoundaries := []);
      var kind: Option<EventKind> := None;
      if q.ready {
        if previous == Provisional {
          finding := finding.(state := Open, occurrences := finding.occurrences + 1);
          kind := Some(WasOpened);
        } else if previous == Resolved {
          finding := finding.(state := Reopened, occurrences := finding.occurrences + 1, resolvedAt := None);
          kind := Some(WasReopened);
        } else if previous == Suppressed && finding.suppressedUntil.Some? && finding.suppressedUntil.value <= now {
          finding := finding.(state := Open, suppressedUntil := None);
          kind := Some(WasUnsuppressed);
        }
      }
      if kind.None? && (created || changed) {
        kind := Some(Observed);
      }
      finding := finding.(updatedAt := now, lockVersion := finding.lockVersion + 1);
      if kind.Some? {
        finding := WithEvent(finding, kind.value, previous, "system", "");
      }
      rows := rows[q.key := finding];
    }

    method Sweep(key: string, run: Run)
      requires key in rows
      modifies this
      ensures rows == old(rows)[key := Absent(old(rows)[key], run)]
    {
      var finding := rows[key];
      if finding.rule !in run.result.evaluatedRules || exists i :: i in finding.identities && i in run.result.blocked {
        if finding.cleanSince.Some? {
          finding := finding.(cleanSince := None, cleanBoundaries := []);
          finding := finding.(lockVersion := finding.lockVersion + 1, updatedAt := run.now);
          rows := rows[key := finding];
        }
        assert rows == old(rows)[key := finding];
        return;
      }
      if finding.cleanSince.None? {
        finding := finding.(cleanSince := Some(run.now), cleanBoundaries := run.boundaries);
      } else if run.now - finding.cleanSince.value >= CLEAN_SECONDS
        && (finding.rule != PI009 || finding.cleanBoundaries != run.boundaries)
      {
        var previous := finding.state;
        finding := finding.(state := Resolved, resolvedAt := Some(run.now));
        finding := WithEvent(finding, WasResolved, previous, "system", "");
      }
      finding := finding.(updatedAt := run.now, lockVersion := finding.lockVersion + 1);
      rows := rows[key := finding];
    }

    method Reconcile(run: Run)
      requires Valid()
      modifies this
      ensures Valid() && rows == AfterRun(old(rows), run)
    {
      hide Proposed, Swept;
      if run.shadow {
        return;
      }
      var present: set<string> := {};
      var qs := run.result.proposals;
      for k := 0 to |qs|
        invariant Valid() && rows == AfterProposals(old(rows), qs[..k], run.now)
        invariant present == set q | q in qs[..k] :: q.key
      {
        assert qs[..k + 1][..k] == qs[..k] && qs[..k + 1] == qs[..k] + [qs[k]];
        present := present + {qs[k].key};
        KeysKept(rows, qs[k], run.now);
        Observe(qs[k], run.now);
      }
      assert qs[..|qs|] == qs;
      SweepAll(present, run);
    }

    /** Every unresolved finding that was not proposed, in no particular order. */
    method SweepAll(present: set<string>, run: Run)
      requires Valid() && present == ProposedKeys(run)
      modifies this
      ensures Valid() && rows == map key | key in old(rows) :: Swept(old(rows)[key], run)
    {
      hide Absent;
      var unresolved := set key | key in rows && rows[key].state != Resolved;
      var rest := unresolved;
      while rest != {}
        invariant rows.Keys == old(rows).Keys && rest <= unresolved
        invariant forall key :: key in rows ==>
          rows[key] == if key in unresolved - rest then Swept(old(rows)[key], run) else old(rows)[key]
        decreases rest
      {
        var key :| key in rest;
        rest := rest - {key};
        if key !in present {
          Sweep(key, run);
        }
      }
      forall key | key in rows ensures Swept(old(rows)[key], run).key == key { SweepKeepsKey(old(rows)[key], run); }
    }

    lemma SweepKeepsKey(f: Finding, run: Run)
      ensures Swept(f, run).key == f.key
    {
    }

    lemma KeysKept(before: Rows, q: Proposal, now: Time)
      requires forall key :: key in before ==> before[key].key == key
      ensures Proposed(Lookup(before, q.key), q, now).key == q.key
    {
    }

    method Act(a: Action) returns (r: Result<Finding, Problem>)
      requires Valid()
      modifies this
      ensures Valid() && rows == AfterAction(old(rows), a)
      ensures r.Ok? <==> Accepts(old(rows), a)
      ensures r.Ok? ==> r.value == Acted(old(rows)[a.key], a)
      ensures r.Err? ==> r.error == if a.key in old(rows) then Refusal(old(rows)[a.key], a).value else NotFound
    {
      if a.key !in rows {
        return Err(NotFound);
      }
      var finding := rows[a.key];
      if finding.lockVersion != a.version {
        return Err(VersionConflict);
      }
      if a.name !in {"acknowledge", "suppress", "resolve", "note"} {
        return Err(InvalidAction);
      }
      var previous := finding.state;
      if a.name == "acknowledge" {
        if previous !in {Open, Reopened, Acknowledged} {
          return Err(InvalidTransition);
        }
        finding := finding.(state := Acknowledged);
      }
      if a.name == "suppress" {
        if previous !in {Open, Reopened, Acknowledged, Suppressed} {
          return Err(InvalidTransition);
        }
        if IsBlank(a.note) || a.until.None? || !(a.now < a.until.value <= a.now + SUPPRESSION_SECONDS) {
          return Err(SuppressionReasonAndExpiryRequired);
        }
        finding := finding.(state := Suppressed, suppressedUntil := a.until);
      }
      if a.name in {"resolve", "note"} && IsBlank(a.note) {
        return Err(NoteRequired);
      }
      if a.name == "resolve" {
        finding := finding.(cleanSince := None);
      }
      finding := finding.(lockVersion := finding.lockVersion + 1, updatedAt := a.now);
      var name := if a.name == "resolve" then "external_resolution_requested" else a.name;
      finding := WithEvent(finding, ActionTaken(name), previous, a.actor, Truncated(a.note));
      rows := rows[a.key := finding];
      r := Ok(finding);
    }
  }
}
