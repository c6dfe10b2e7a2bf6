/** Which states findings reach, and when: readiness opens them, calm closes them, and operators move the rest. */
module FindingStates {
  import opened Wrappers
  import opened Domain
  import opened Findings
  import opened FindingRuns

  // ----- proposals -----

  /** The run proposes this finding, and says that it is ready. */
  predicate Readies(run: Run, key: string) {
    !run.shadow && exists q :: q in run.result.proposals && q.key == key && q.ready
  }

  predicate Expired(f: Finding, now: Time) {
    f.state == Suppressed && f.suppressedUntil.Some? && f.suppressedUntil.value <= now
  }

  /** The state of a finding that is proposed and ready. */
  function Woken(prior: Option<Finding>, now: Time): State {
    if prior.None? || prior.value.state == Provisional then Open
    else if prior.value.state == Resolved then Reopened
    else if Expired(prior.value, now) then Open
    else prior.value.state
  }

  function StateOf(prior: Option<Finding>): State { if prior.Some? then prior.value.state else Provisional }

  lemma OneProposal(prior: Option<Finding>, q: Proposal, now: Time)
    ensures Proposed(prior, q, now).state == if q.ready then Woken(prior, now) else StateOf(prior)
    ensures q.ready ==> Woken(Some(Proposed(prior, q, now)), now) == Proposed(prior, q, now).state
    ensures !q.ready ==> Woken(Some(Proposed(prior, q, now)), now) == Woken(prior, now)
  {
  }

  predicate AnyReady(qs: seq<Proposal>, key: string) { exists q :: q in qs && q.key == key && q.ready }

  predicate AnyFor(qs: seq<Proposal>, key: string) { exists q :: q in qs && q.key == key }

  lemma AnyAppend(qs: seq<Proposal>, q: Proposal, key: string)
    ensures AnyReady(qs + [q], key) <==> AnyReady(qs, key) || (q.key == key && q.ready)
    ensures AnyFor(qs + [q], key) <==> AnyFor(qs, key) || q.key == key
  {
    assert forall p :: p in qs + [q] <==> p in qs || p == q;
  }

  lemma {:induction false} StateAfterProposals(rows: Rows, qs: seq<Proposal>, now: Time, key: string)
    ensures var after := Lookup(AfterProposals(rows, qs, now), key);
      && (AnyFor(qs, key) ==> after.Some?)
      && StateOf(after) == (if AnyReady(qs, key) then Woken(Lookup(rows, key), now) else StateOf(Lookup(rows, key)))
      && Woken(after, now) == Woken(Lookup(rows, key), now)
  {
    hide Proposed, AnyReady, AnyFor;
    if qs == [] {
      NoneFor(key);
    } else {
      var init, q := qs[..|qs| - 1], qs[|qs| - 1];
      StateAfterProposals(rows, init, now, key);
      assert qs == init + [q];
      AnyAppend(init, q, key);
      OneProposal(Lookup(AfterProposals(rows, init, now), q.key), q, now);
    }
  }

  lemma NoneFor(key: string)
    ensures !AnyReady([], key) && !AnyFor([], key)
  {
  }

  /** The state of a finding after a reconciliation that proposes it. */
  lemma ProposedState(rows: Rows, run: Run, key: string)
    requires OwnKeys(rows) && !run.shadow && AnyFor(run.result.proposals, key)
    ensures key in AfterRun(rows, run)
    ensures AfterRun(rows, run)[key].state
         == if Readies(run, key) then Woken(Lookup(rows, key), run.now) else StateOf(Lookup(rows, key))
  {
    hide Proposed, Absent, AfterProposals, Woken, StateOf;
    var qs := run.result.proposals;
    StateAfterProposals(rows, qs, run.now, key);
    KeysStay(rows, qs, run.now);
    var q :| q in qs && q.key == key;
    assert key in ProposedKeys(run);
    Awake(Lookup(rows, key), Lookup(AfterProposals(rows, qs, run.now), key), run.now);
  }

  lemma Awake(prior: Option<Finding>, after: Option<Finding>, now: Time)
    requires after.Some?
    ensures StateOf(after) == after.value.state
  {
  }

  lemma AbsentState(rows: Rows, run: Run, key: string)
    requires OwnKeys(rows) && !run.shadow && !AnyFor(run.result.proposals, key) && key in AfterRun(rows, run)
    ensures key in rows
    ensures AfterRun(rows, run)[key].state == rows[key].state || AfterRun(rows, run)[key].state == Resolved
    ensures AfterRun(rows, run)[key].state != rows[key].state ==>
              var f, g := rows[key], AfterRun(rows, run)[key];
              && g.resolvedAt == Some(run.now) && g.updatedAt == run.now
              && g.events == f.events + [Event(WasResolved, "system", f.state, Resolved, "")]
  {
    hide AfterRun, Proposed, SpeaksFor;
    assert key !in ProposedKeys(run);
    RunOnAbsent(rows, run, key);
  }

  /**
   After a reconciliation that proposes a finding and says it is ready, the finding is not provisional, not resolved,
   and not suppressed beyond its time.
   */
  lemma ReadyIsActive(steps: seq<Step>, key: string)
    requires |steps| > 0 && steps[|steps| - 1].Reconcile? && Readies(steps[|steps| - 1].run, key)
    ensures key in After(steps)
    ensures var f := After(steps)[key];
      && f.state != Provisional && f.state != Resolved
      && !(f.state == Suppressed && f.suppressedUntil.Some? && f.suppressedUntil.value <= steps[|steps| - 1].run.now)
  {
    hide AfterRun;
    var init, run := steps[..|steps| - 1], steps[|steps| - 1].run;
    HistoryKeys(init);
    ProposedState(After(init), run, key);
    StillSuppressed(After(init), run, key);
    EventLogsSound(init);
  }

  /** A ready run leaves a suppression as it was, and then it has not expired. */
  lemma StillSuppressed(rows: Rows, run: Run, key: string)
    requires OwnKeys(rows) && Readies(run, key)
    ensures key in AfterRun(rows, run)
    ensures AfterRun(rows, run)[key].state == Suppressed ==> !Expired(AfterRun(rows, run)[key], run.now)
  {
    hide Proposed, Absent, AfterProposals, Woken;
    var qs := run.result.proposals;
    var q :| q in qs && q.key == key && q.ready;
    StateAfterProposals(rows, qs, run.now, key);
    KeysStay(rows, qs, run.now);
    assert key in ProposedKeys(run);
    var f := AfterProposals(rows, qs, run.now)[key];
    assert f.state == Woken(Some(f), run.now);
    NeverBothExpired(f, run.now);
  }

  lemma NeverBothExpired(f: Finding, now: Time)
    ensures f.state == Woken(Some(f), now) ==> !Expired(f, now)
  {
  }

  /** What a step can do to the state of a finding that is there afterwards. */
  ghost predicate Transition(steps: seq<Step>, key: string, before: State, after: State)
    requires |steps| > 0
  {
    var rows := After(steps[..|steps| - 1]);
    match steps[|steps| - 1]
    case Act(a) =>
      a.key == key && Accepts(rows, a)
      && ((a.name == "acknowledge" && before in {Open, Reopened, Acknowledged} && after == Acknowledged)
          || (a.name == "suppress" && before in {Open, Reopened, Acknowledged, Suppressed} && after == Suppressed))
    case Reconcile(run) =>
      !run.shadow
      && (if AnyFor(run.result.proposals, key) then
            && Readies(run, key)
            && ((before == Provisional && after == Open) || (before == Resolved && after == Reopened)
                || (before == Suppressed && after == Open && key in rows && Expired(rows[key], run.now)))
          else key in rows && before != Resolved && after == Resolved)
  }

  /**
   A finding opens from provisional, or reopens, only when a reconciliation proposes it and says it is ready; it leaves
   suppression early only by an operator; and nothing else changes its state.
   */
  lemma OnlyTransitions(steps: seq<Step>, key: string)
    requires |steps| > 0 && key in After(steps)
    ensures var before, after := StateOf(Lookup(After(steps[..|steps| - 1]), key)), After(steps)[key].state;
      before == after || Transition(steps, key, before, after)
  {
    hide AfterRun, Accepts, Readies, AnyFor;
    var init, last := steps[..|steps| - 1], steps[|steps| - 1];
    var rows := After(init);
    HistoryKeys(init);
    match last
    case Act(a) => if Accepts(rows, a) && a.key == key { ActedState(rows, a); }
    case Reconcile(run) =>
      if run.shadow {
        ShadowRun(rows, run);
      } else if AnyFor(run.result.proposals, key) {
        ProposedState(rows, run, key);
      } else {
        AbsentState(rows, run, key);
      }
  }

  /** The finding carries what a proposal says, seen at this time, and its clean period is over. */
  predicate Reflects(f: Finding, q: Proposal, now: Time) {
    && f.key == q.key && f.evidence == q.evidence && f.risk == q.risk && f.confidence == q.confidence
    && f.eligibleAt == q.eligibleAt && f.lastSeen == now && f.updatedAt == now && f.cleanSince.None?
  }

  /** A new finding is about what a proposal is about, first seen at this time. */
  predicate CreatedFor(f: Finding, q: Proposal, now: Time) {
    f.rule == q.rule && f.severity == q.severity && f.identities == q.identities && f.firstSeen == now
  }

  ghost predicate CarriesSome(f: Finding, qs: seq<Proposal>, key: string, now: Time) {
    exists q :: q in qs && q.key == key && Reflects(f, q, now)
  }

  ghost predicate CreatedForSome(f: Finding, qs: seq<Proposal>, key: string, now: Time) {
    exists q :: q in qs && q.key == key && CreatedFor(f, q, now)
  }

  lemma ProposedReflects(prior: Option<Finding>, q: Proposal, now: Time)
    requires prior.Some? ==> prior.value.key == q.key
    ensures var g := Proposed(prior, q, now);
      && Reflects(g, q, now) && (prior.None? ==> CreatedFor(g, q, now))
      && (prior.Some? ==>
            var f := prior.value;
            g.rule == f.rule && g.severity == f.severity && g.identities == f.identities && g.firstSeen == f.firstSeen)
  {
  }

  lemma {:induction false} ProposalsReflected(rows: Rows, qs: seq<Proposal>, now: Time, key: string)
    requires OwnKeys(rows) && AnyFor(qs, key)
    ensures var after := AfterProposals(rows, qs, now);
      && key in after && CarriesSome(after[key], qs, key, now)
      && (key !in rows ==> CreatedForSome(after[key], qs, key, now))
  {
    hide Proposed, Reflects, CreatedFor;
    var init, q := qs[..|qs| - 1], qs[|qs| - 1];
    var before := AfterProposals(rows, init, now);
    assert qs == init + [q];
    AnyAppend(init, q, key);
    KeysStay(rows, init, now);
    ProposedReflects(Lookup(before, q.key), q, now);
    if AnyFor(init, key) {
      ProposalsReflected(rows, init, now, key);
      StillCarried(before[key], AfterProposals(rows, qs, now)[key], init, q, key, now);
    } else {
      forall p | p in init ensures p.key != key {}
      UnproposedUntouched(rows, init, now, key);
    }
  }

  lemma StillCarried(f: Finding, g: Finding, init: seq<Proposal>, q: Proposal, key: string, now: Time)
    requires CarriesSome(f, init, key, now)
    requires if q.key == key then Reflects(g, q, now) else g == f
    requires g.rule == f.rule && g.severity == f.severity && g.identities == f.identities && g.firstSeen == f.firstSeen
    ensures CarriesSome(g, init + [q], key, now)
    ensures CreatedForSome(f, init, key, now) ==> CreatedForSome(g, init + [q], key, now)
  {
    hide Reflects;
    assert forall p :: p in init + [q] <==> p in init || p == q;
  }

  /** After a reconciliation that proposes a finding, the finding carries a proposal of that run. */
  lemma ProposedIsCarried(rows: Rows, run: Run, key: string)
    requires OwnKeys(rows) && !run.shadow && AnyFor(run.result.proposals, key)
    ensures key in AfterRun(rows, run)
    ensures var f := AfterRun(rows, run)[key];
      && CarriesSome(f, run.result.proposals, key, run.now)
      && (key !in rows ==> CreatedForSome(f, run.result.proposals, key, run.now))
  {
    hide Proposed, Absent, AfterProposals, CarriesSome, CreatedForSome;
    ProposalsReflected(rows, run.result.proposals, run.now, key);
    KeysStay(rows, run.result.proposals, run.now);
    var q :| q in run.result.proposals && q.key == key;
    assert key in ProposedKeys(run);
  }

  /** What one reconciliation writes to the log of a finding that it proposes. */
  function Written(prior: Option<Finding>, q: Proposal, now: Time): seq<Event> {
    var before := StateOf(prior);
    if q.ready && before == Provisional then [Event(WasOpened, "system", before, Open, "")]
    else if q.ready && before == Resolved then [Event(WasReopened, "system", before, Reopened, "")]
    else if q.ready && prior.Some? && Expired(prior.value, now) then
      [Event(WasUnsuppressed, "system", before, Open, "")]
    else if prior.None? then [Event(Observed, "system", before, before, "")]
    else
      var known := prior.value.evidence;
      if known.facts != q.evidence.facts || known.policyVersion != q.evidence.policyVersion
      then [Event(Observed, "system", before, before, "")] else []
  }

  lemma OneProposalWrites(prior: Option<Finding>, q: Proposal, now: Time)
    ensures var g, ready := Proposed(prior, q, now), q.ready;
      && g.events == (if prior.Some? then prior.value.events else []) + Written(prior, q, now)
      && g.occurrences == (if prior.Some? then prior.value.occurrences else 0)
           + (if ready && (StateOf(prior) == Provisional || StateOf(prior) == Resolved) then 1 else 0)
      && (ready && StateOf(prior) == Resolved ==> g.resolvedAt.None?)
      && (ready && prior.Some? && Expired(prior.value, now) ==> g.suppressedUntil.None?)
      && g.lockVersion == (if prior.Some? then prior.value.lockVersion else 0) + 1
  {
    if prior.Some? { assert prior.value.events + [] == prior.value.events; }
  }

  lemma {:induction false} SoleProposal(rows: Rows, qs: seq<Proposal>, now: Time, i: nat)
    requires i < |qs| && forall j :: 0 <= j < |qs| && j != i ==> qs[j].key != qs[i].key
    ensures var after := AfterProposals(rows, qs, now);
      qs[i].key in after && after[qs[i].key] == Proposed(Lookup(rows, qs[i].key), qs[i], now)
  {
    hide Proposed;
    var init := qs[..|qs| - 1];
    if i < |init| {
      SoleProposal(rows, init, now, i);
      assert qs[|qs| - 1].key != qs[i].key;
    } else {
      UnproposedUntouched(rows, init, now, qs[i].key);
    }
  }

  /**
   The log and the counters of a finding that a reconciliation proposes once: an event for each change of state, for a
   new finding, and for evidence that changed in more than its coverage.
   */
  lemma ProposedIsLogged(rows: Rows, run: Run, i: nat)
    requires OwnKeys(rows) && !run.shadow && i < |run.result.proposals|
    requires forall j :: 0 <= j < |run.result.proposals| && j != i ==>
               run.result.proposals[j].key != run.result.proposals[i].key
    ensures run.result.proposals[i].key in AfterRun(rows, run)
    ensures var q := run.result.proposals[i];
      var prior, f := Lookup(rows, q.key), AfterRun(rows, run)[q.key];
      && f.events == (if prior.Some? then prior.value.events else []) + Written(prior, q, run.now)
      && f.occurrences == (if prior.Some? then prior.value.occurrences else 0)
           + (if q.ready && (StateOf(prior) == Provisional || StateOf(prior) == Resolved) then 1 else 0)
      && (q.ready && StateOf(prior) == Resolved ==> f.resolvedAt.None?)
      && (q.ready && prior.Some? && Expired(prior.value, run.now) ==> f.suppressedUntil.None?)
      && f.lockVersion == (if prior.Some? then prior.value.lockVersion else 0) + 1
  {
    hide Proposed, Absent, AfterProposals, Written, StateOf, Expired;
    var qs := run.result.proposals;
    SoleProposal(rows, qs, run.now, i);
    OneProposalWrites(Lookup(rows, qs[i].key), qs[i], run.now);
    KeysStay(rows, qs, run.now);
    assert qs[i].key in ProposedKeys(run);
  }

  // ----- operator actions -----

  /** What an action needs of the finding, and of its own arguments. */
  predicate Allowed(f: Finding, a: Action) {
    && f.lockVersion == a.version
    && match a.name
       case "acknowledge" => f.state == Open || f.state == Reopened || f.state == Acknowledged
       case "suppress" =>
         && (f.state == Open || f.state == Reopened || f.state == Acknowledged || f.state == Suppressed)
         && !IsBlank(a.note) && a.until.Some? && a.now < a.until.value <= a.now + 604800
       case "resolve" => !IsBlank(a.note)
       case "note" => !IsBlank(a.note)
       case _ => false
  }

  lemma AcceptsIff(rows: Rows, a: Action)
    ensures Accepts(rows, a) <==> a.key in rows && Allowed(rows[a.key], a)
  {
    hide IsBlank;
  }

  /** The finding after an accepted action: its state, its clocks, its version and the event that records it. */
  lemma ActedState(rows: Rows, a: Action)
    requires Accepts(rows, a)
    ensures var f, g := rows[a.key], AfterAction(rows, a)[a.key];
      && AfterAction(rows, a).Keys == rows.Keys
      && (forall k :: k in rows && k != a.key ==> AfterAction(rows, a)[k] == rows[k])
      && g.state == (if a.name == "acknowledge" then Acknowledged else if a.name == "suppress" then Suppressed
                     else f.state)
      && g.suppressedUntil == (if a.name == "suppress" then a.until else f.suppressedUntil)
      && g.cleanSince == (if a.name == "resolve" then None else f.cleanSince)
      && g.lockVersion == f.lockVersion + 1 && g.updatedAt == a.now
      && |g.events| == |f.events| + 1 && g.events[..|f.events|] == f.events
      && var e := g.events[|f.events|];
         && e.actor == a.actor && e.previous == f.state && e.current == g.state
         && e.note == a.note[..if |a.note| < 1000 then |a.note| else 1000]
         && e.kind == ActionTaken(if a.name == "resolve" then "external_resolution_requested" else a.name)
    ensures (a.name == "acknowledge" ==> rows[a.key].state in {Open, Reopened, Acknowledged})
    ensures (a.name == "suppress" ==> rows[a.key].state in {Open, Reopened, Acknowledged, Suppressed})
  {
    hide IsBlank;
    assert a.note[..|a.note|] == a.note;
  }

  // ----- calm resolves -----

  /** The streak began with step j and not before. */
  ghost predicate BeginsStreak(steps: seq<Step>, j: nat, f: Finding) {
    && j < |steps| && steps[j].Reconcile?
    && CleanStreak(steps, j, f, steps[j].run.now, steps[j].run.boundaries)
    && forall i, since, boundaries :: 0 <= i < j ==> !CleanStreak(steps, i, f, since, boundaries)
  }

  /** The finding is resolved, or its clean period began with this run. */
  ghost predicate CleanFrom(f: Finding, run: Run) {
    f.state == Resolved || (f.cleanSince == Some(run.now) && f.cleanBoundaries == run.boundaries)
  }

  /** A calm step creates no finding. */
  lemma CalmStep(steps: seq<Step>, key: string)
    requires |steps| > 0 && key in After(steps) && Calm(steps, |steps| - 1, After(steps)[key])
    ensures key in After(steps[..|steps| - 1]) && SameSubject(After(steps[..|steps| - 1])[key], After(steps)[key])
  {
    hide AfterRun, SpeaksFor;
    var init, last := steps[..|steps| - 1], steps[|steps| - 1];
    HistoryKeys(init);
    HistoryKeys(steps);
    match last {
      case Act(a) =>
      case Reconcile(run) =>
        if run.shadow { ShadowRun(After(init), run); } else { RunOnAbsent(After(init), run, key); }
    }
    StepGrows(After(init), last, key);
  }

  lemma {:induction false} PresentBefore(steps: seq<Step>, j: nat, n: nat, key: string)
    requires key in After(steps) && j <= n <= |steps|
    requires forall m :: j <= m < |steps| ==> Calm(steps, m, After(steps)[key])
    ensures key in After(steps[..n]) && SameSubject(After(steps[..n])[key], After(steps)[key])
  {
    hide Apply;
    if n == |steps| {
      assert steps[..n] == steps;
    } else {
      var init := steps[..|steps| - 1];
      CalmStep(steps, key);
      CalmPrefix(steps, |steps| - 1, j, After(steps)[key], After(init)[key]);
      PresentBefore(init, j, n, key);
      assert init[..n] == steps[..n];
    }
  }

  lemma CalmPrefix(steps: seq<Step>, n: nat, j: nat, f: Finding, g: Finding)
    requires n <= |steps| && SameSubject(f, g)
    requires forall m :: j <= m < |steps| ==> Calm(steps, m, f)
    ensures forall m :: j <= m < n ==> Calm(steps[..n], m, g)
  {
    hide After, Accepts;
    forall m | j <= m < n ensures Calm(steps[..n], m, g) {
      assert steps[..n][..m] == steps[..m] && steps[..n][m] == steps[m] && Calm(steps, m, f);
    }
  }

  /** A streak goes on as long as the steps are calm. */
  lemma StreakGoesOn(steps: seq<Step>, n: nat, i: nat, f: Finding, g: Finding, since: Time, boundaries: Boundaries)
    requires n <= |steps| && SameSubject(f, g) && CleanStreak(steps[..n], i, f, since, boundaries)
    requires forall m :: n <= m < |steps| ==> Calm(steps, m, g)
    ensures CleanStreak(steps, i, g, since, boundaries)
  {
    hide After, Accepts;
    forall m | i <= m < |steps| ensures Calm(steps, m, g) {
      if m < n {
        assert Calm(steps[..n], m, f);
        assert steps[..n][..m] == steps[..m] && steps[..n][m] == steps[m];
      }
    }
  }

  lemma StreakStarts(steps: seq<Step>, j: nat, key: string)
    requires key in After(steps) && BeginsStreak(steps, j, After(steps)[key])
    ensures key in After(steps[..j + 1]) && CleanFrom(After(steps[..j + 1])[key], steps[j].run)
  {
    hide AfterRun, Calm;
    var rows, run := After(steps[..j]), steps[j].run;
    PresentBefore(steps, j, j, key);
    assert steps[..j + 1][..j] == steps[..j];
    HistoryKeys(steps[..j]);
    assert Calm(steps, j, After(steps)[key]);
    CalmRun(steps, j, After(steps)[key]);
    RunOnAbsent(rows, run, key);
    if rows[key].state != Resolved && rows[key].cleanSince.Some? {
      var i := StreakBehindCleanSince(steps[..j], key);
      StreakGoesOn(steps, j, i, rows[key], After(steps)[key], rows[key].cleanSince.value, rows[key].cleanBoundaries);
      assert false;
    }
  }

  lemma CalmRun(steps: seq<Step>, m: nat, f: Finding)
    requires m < |steps| && Calm(steps, m, f) && steps[m].Reconcile? && !steps[m].run.shadow
    ensures f.key !in ProposedKeys(steps[m].run) && SpeaksFor(steps[m].run, f)
  {
  }

  lemma StreakStep(steps: seq<Step>, key: string, first: Run)
    requires |steps| > 0 && key in After(steps) && Calm(steps, |steps| - 1, After(steps)[key])
    requires key in After(steps[..|steps| - 1]) && CleanFrom(After(steps[..|steps| - 1])[key], first)
    ensures CleanFrom(After(steps)[key], first)
  {
    hide AfterRun, SpeaksFor;
    var init, last := steps[..|steps| - 1], steps[|steps| - 1];
    HistoryKeys(init);
    HistoryKeys(steps);
    CalmStep(steps, key);
    match last {
      case Act(a) => AcceptsIff(After(init), a);
      case Reconcile(run) =>
        if run.shadow {
          ShadowRun(After(init), run);
        } else {
          CalmRun(steps, |steps| - 1, After(steps)[key]);
          RunOnAbsent(After(init), run, key);
          SameVoice(run, After(init)[key], After(steps)[key]);
        }
    }
  }

  lemma SameVoice(run: Run, f: Finding, g: Finding)
    requires SameSubject(f, g)
    ensures SpeaksFor(run, f) <==> SpeaksFor(run, g)
  {
  }

  lemma {:induction false} StreakRuns(steps: seq<Step>, j: nat, n: nat, key: string)
    requires key in After(steps) && BeginsStreak(steps, j, After(steps)[key]) && j < n <= |steps|
    ensures key in After(steps[..n]) && SameSubject(After(steps[..n])[key], After(steps)[key])
    ensures CleanFrom(After(steps[..n])[key], steps[j].run)
    decreases n
  {
    hide Apply, CleanFrom, Calm;
    PresentBefore(steps, j, n, key);
    if n == j + 1 {
      StreakStarts(steps, j, key);
    } else {
      StreakRuns(steps, j, n - 1, key);
      assert steps[..n][..n - 1] == steps[..n - 1];
      CalmPrefix(steps, n, j, After(steps)[key], After(steps[..n])[key]);
      StreakStep(steps[..n], key, steps[j].run);
    }
  }

  /**
   The other half of `ResolvedOnlyAfterCleanStreak`: a reconciliation that goes on with a streak begun at least five
   minutes before leaves the finding resolved. For PI-009 the coverage boundaries must have moved since.
   */
  lemma CalmResolves(steps: seq<Step>, j: nat, key: string)
    requires key in After(steps) && BeginsStreak(steps, j, After(steps)[key]) && j < |steps| - 1
    requires var last := steps[|steps| - 1];
      && last.Reconcile? && !last.run.shadow && last.run.now - steps[j].run.now >= 300
      && (After(steps)[key].rule == PI009 ==> last.run.boundaries != steps[j].run.boundaries)
    ensures After(steps)[key].state == Resolved
  {
    hide AfterRun, Calm;
    var n := |steps| - 1;
    var run := steps[n].run;
    StreakRuns(steps, j, n, key);
    HistoryKeys(steps[..n]);
    assert Calm(steps, n, After(steps)[key]);
    CalmRun(steps, n, After(steps)[key]);
    HistoryKeys(steps);
    RunOnAbsent(After(steps[..n]), run, key);
    SameVoice(run, After(steps[..n])[key], After(steps)[key]);
  }
}
