/** What the coverage of a payment account means, in every run of the scan worker. */
module StripeCoverage {
  import opened Wrappers
  import opened Domain
  import opened Intervals
  import opened Projections
  import opened StripeWorker
  import opened StripeRuns

  // ----- a complete scan has seen everything -----

  /** The first page is asked for from the beginning, and each next one after the last row of the page before. */
  predicate Chained(turns: seq<Turn>) {
    && (turns != [] ==> turns[0].asked == "")
    && forall i :: 0 <= i < |turns| - 1 ==>
         turns[i].response.Page? && turns[i].response.last == Some(turns[i + 1].asked)
  }

  /** One listing, read page by page to its end. */
  predicate WholeListing(turns: seq<Turn>) {
    && turns != [] && Chained(turns)
    && turns[|turns| - 1].response.Page? && !turns[|turns| - 1].response.hasMore
    && forall i :: 0 <= i < |turns| - 1 ==> turns[i].response.Page? && turns[i].response.hasMore
  }

  /** The pages are n whole listings, one after the other. */
  ghost predicate WholeListings(turns: seq<Turn>, n: nat) {
    if n == 0 then turns == []
    else exists m: nat :: m < |turns| && WholeListings(turns[..m], n - 1) && WholeListing(turns[m..])
  }

  /** The beginning of a listing of the provider, or of the batches of linked orders once the listings are exhausted. */
  predicate Begun(turns: seq<Turn>, phase: nat) {
    && Chained(turns)
    && forall t :: t in turns ==>
         t.response.Page? && (if phase < PHASES then t.response.hasMore else t.response.last.Some?)
  }

  /** All batches of linked orders, up to and with the empty one. */
  predicate WholeRecheck(turns: seq<Turn>) {
    && turns != [] && Chained(turns) && Begun(turns[..|turns| - 1], PHASES)
    && turns[|turns| - 1].response.Page? && turns[|turns| - 1].response.last.None?
  }

  /** Where the next page is asked for. */
  predicate ResumesAt(turns: seq<Turn>, cursor: string) {
    if turns == [] then cursor == ""
    else turns[|turns| - 1].response.Page? && turns[|turns| - 1].response.last == Some(cursor)
  }

  lemma ChainedAppend(turns: seq<Turn>, t: Turn)
    requires Chained(turns) && ResumesAt(turns, t.asked)
    ensures Chained(turns + [t])
  {
  }

  /** The trail of a scan that is not complete: m pages of whole listings, then what it has read of the next. */
  ghost predicate Reading(trail: seq<Turn>, m: nat, phase: nat, cursor: string) {
    m <= |trail| && WholeListings(trail[..m], phase) && Begun(trail[m..], phase) && ResumesAt(trail[m..], cursor)
  }

  ghost predicate SawEverything(trail: seq<Turn>, m: nat) {
    m <= |trail| && WholeListings(trail[..m], PHASES) && WholeRecheck(trail[m..])
  }

  ghost predicate Seen(trail: seq<Turn>, scan: ScanRow) {
    && |trail| == scan.pageCount && scan.phase <= PHASES
    && if scan.status == ScanComplete then scan.phase == PHASES && exists m :: SawEverything(trail, m)
       else exists m :: Reading(trail, m, scan.phase, scan.providerCursor)
  }

  lemma ListingEnds(trail: seq<Turn>, m: nat, phase: nat, turn: Turn)
    requires Reading(trail, m, phase, turn.asked) && phase < PHASES && turn.response.Page? && !turn.response.hasMore
    ensures Reading(trail + [turn], |trail| + 1, phase + 1, "")
  {
    hide ResumesAt, Begun;
    var next := trail + [turn];
    assert next[..|next|][..m] == trail[..m] && next[..|next|][m..] == trail[m..] + [turn];
    EndsListing(trail[m..], phase, turn);
    assert next[|next|..] == [];
    NothingRead(phase + 1);
  }

  lemma EndsListing(turns: seq<Turn>, phase: nat, turn: Turn)
    requires Begun(turns, phase) && phase < PHASES && turn.response.Page? && !turn.response.hasMore
    requires ResumesAt(turns, turn.asked)
    ensures WholeListing(turns + [turn])
  {
    ChainedAppend(turns, turn);
    hide Chained;
    assert forall i :: 0 <= i < |turns| ==> (turns + [turn])[i] == turns[i] && turns[i] in turns;
  }

  lemma NothingRead(phase: nat)
    ensures Begun([], phase) && ResumesAt([], "")
  {
  }

  lemma GoesOn(turns: seq<Turn>, phase: nat, turn: Turn)
    requires Begun(turns, phase) && ResumesAt(turns, turn.asked) && turn.response.Page? && turn.response.last.Some?
    requires phase < PHASES ==> turn.response.hasMore
    ensures Begun(turns + [turn], phase) && ResumesAt(turns + [turn], turn.response.last.value)
  {
    ChainedAppend(turns, turn);
    hide Chained;
  }

  lemma ReadingGoesOn(trail: seq<Turn>, m: nat, phase: nat, turn: Turn)
    requires Reading(trail, m, phase, turn.asked) && turn.response.Page? && turn.response.last.Some?
    requires phase < PHASES ==> turn.response.hasMore
    ensures Reading(trail + [turn], m, phase, turn.response.last.value)
  {
    hide WholeListings, Begun, ResumesAt;
    var next := trail + [turn];
    assert next[..m] == trail[..m] && next[m..] == trail[m..] + [turn];
    GoesOn(trail[m..], phase, turn);
  }

  lemma EndsRecheck(turns: seq<Turn>, turn: Turn)
    requires Begun(turns, PHASES) && ResumesAt(turns, turn.asked) && turn.response.Page? && turn.response.last.None?
    ensures WholeRecheck(turns + [turn])
  {
    ChainedAppend(turns, turn);
    hide Chained;
    assert (turns + [turn])[..|turns|] == turns;
  }

  lemma RecheckEnds(trail: seq<Turn>, m: nat, turn: Turn)
    requires Reading(trail, m, PHASES, turn.asked) && turn.response.Page? && turn.response.last.None?
    ensures SawEverything(trail + [turn], m)
  {
    hide WholeListings, Begun, ResumesAt, WholeRecheck;
    var next := trail + [turn];
    assert next[..m] == trail[..m] && next[m..] == trail[m..] + [turn];
    EndsRecheck(trail[m..], turn);
  }

  lemma TurnedSeen(trail: seq<Turn>, before: ScanRow, after: ScanRow, turn: Turn)
    requires Seen(trail, before) && turn.asked == before.providerCursor && TurnedTo(before, after, turn.response)
    ensures Seen(trail + [turn], after)
  {
    hide Reading, SawEverything;
    var m :| Reading(trail, m, before.phase, before.providerCursor);
    if before.phase < PHASES && !turn.response.hasMore {
      ListingEnds(trail, m, before.phase, turn);
    } else if before.phase < PHASES || turn.response.last.Some? {
      ReadingGoesOn(trail, m, before.phase, turn);
    } else {
      RecheckEnds(trail, m, turn);
    }
  }

  ghost predicate AllSeen(w: World) {
    && w.trails.Keys <= w.state.scans.Keys
    && forall id :: id in w.state.scans ==> Seen(TrailOf(w.trails, id), w.state.scans[id])
  }

  lemma NewScanSeen(scan: ScanRow)
    requires StartsNew(scan)
    ensures Seen([], scan)
  {
    var none: seq<Turn> := [];
    assert none[..0] == none && none[0..] == none;
    assert Reading([], 0, 0, "");
  }

  lemma DeliverSeen(w: World, key: TaskKey, d: Delivery)
    requires AllSeen(w) && d.newScan !in w.state.scans
    ensures AllSeen(Next(w, Deliver(key, d)))
  {
    hide Seen, Delivered, StartsNew, TurnedTo, SameOrFailed;
    var t := Next(w, Deliver(key, d));
    forall id | id in t.state.scans ensures Seen(TrailOf(t.trails, id), t.state.scans[id]) {
      ScanChanges(w.state, key, d, id);
      if id !in w.state.scans {
        NewScanSeen(t.state.scans[id]);
      } else if TurnsPageOf(w.state, key, d, id) {
        var turn := Turn(w.state.scans[id].providerCursor, d.response);
        TurnedSeen(TrailOf(w.trails, id), w.state.scans[id], t.state.scans[id], turn);
      } else {
        FailedSeen(TrailOf(w.trails, id), w.state.scans[id], t.state.scans[id]);
      }
    }
    forall id | id in w.state.scans ensures id in t.state.scans { ScanChanges(w.state, key, d, id); }
  }

  lemma FailedSeen(trail: seq<Turn>, before: ScanRow, after: ScanRow)
    requires Seen(trail, before)
    requires SameOrFailed(before, after)
    ensures Seen(trail, after)
  {
  }

  lemma NextSeen(w: World, step: Step)
    requires AllSeen(w)
    ensures AllSeen(Next(w, step))
  {
    hide Seen, Delivered, TrailsAfter, Turns;
    if step.Deliver? && Enabled(w, step) { DeliverSeen(w, step.key, step.d); }
  }

  lemma {:induction false} AlwaysSeen(tokens: Tokens, now: Time, steps: seq<Step>)
    ensures AllSeen(After(Start(tokens, now), steps))
  {
    if steps != [] {
      hide AllSeen, Next;
      AlwaysSeen(tokens, now, steps[..|steps| - 1]);
      NextSeen(After(Start(tokens, now), steps[..|steps| - 1]), steps[|steps| - 1]);
    } else {
      NothingSeen(tokens, now);
    }
  }

  lemma NothingSeen(tokens: Tokens, now: Time)
    ensures AllSeen(Start(tokens, now))
  {
  }

  /**
   A complete scan turned as many pages as it counts: four whole listings of the provider, then every batch of linked
   orders up to the empty one. Each page was asked for after the last row of the one before it.
   */
  lemma CompleteScanSawEverything(tokens: Tokens, now: Time, steps: seq<Step>, id: ScanId)
    requires var s := After(Start(tokens, now), steps).state; id in s.scans && s.scans[id].status == ScanComplete
    ensures var w := After(Start(tokens, now), steps);
      && var trail := TrailOf(w.trails, id);
         && |trail| == w.state.scans[id].pageCount <= PAGE_LIMIT
         && exists m: nat :: m <= |trail| && WholeListings(trail[..m], 4) && WholeRecheck(trail[m..])
  {
    hide Next;
    AlwaysSeen(tokens, now, steps);
    AlwaysQueueing(tokens, now, steps);
    var w := After(Start(tokens, now), steps);
    var m :| SawEverything(TrailOf(w.trails, id), m);
  }

  // ----- the covered interval -----

  /** Some complete scan looked at this instant. */
  ghost predicate LookedAt(scans: map<ScanId, ScanRow>, t: Time) {
    exists id :: id in scans && scans[id].status == ScanComplete && Within(t, scans[id].window)
  }

  /** The interval holds exactly the instants that complete scans looked at; there is none before the first. */
  ghost predicate CoversExactly(scans: map<ScanId, ScanRow>, covered: Option<Interval>) {
    match covered
    case None => forall id :: id in scans ==> scans[id].status != ScanComplete
    case Some(c) => c.from <= c.through && forall t: Time :: Within(t, c) <==> LookedAt(scans, t)
  }

  /** Pending windows are well-formed, past, and end no earlier than what is covered. */
  ghost predicate WindowsPast(scans: map<ScanId, ScanRow>, covered: Option<Interval>, clock: Time) {
    && (covered.Some? ==> covered.value.through <= clock - 30)
    && forall id :: IsPending(scans, id) ==>
         && scans[id].window.from <= scans[id].window.through <= clock - 30
         && (covered.Some? ==> covered.value.through <= scans[id].window.through)
  }

  ghost predicate Exact(s: State, clock: Time) {
    && s.payments == s.refunds
    && CoversExactly(s.scans, s.payments.covered)
    && WindowsPast(s.scans, s.payments.covered, clock)
  }

  /** Windows never change, and no scan becomes complete. */
  ghost predicate NoneCompleted(before: map<ScanId, ScanRow>, after: map<ScanId, ScanRow>) {
    && (forall id :: id in before ==>
          && id in after && after[id].window == before[id].window
          && (after[id].status == ScanComplete <==> before[id].status == ScanComplete)
          && (IsPending(after, id) ==> IsPending(before, id)))
    && (forall id :: id in after && id !in before ==> after[id].status == ScanPending)
  }

  lemma NoneCompletedCovers(before: map<ScanId, ScanRow>, after: map<ScanId, ScanRow>, covered: Option<Interval>)
    requires CoversExactly(before, covered) && NoneCompleted(before, after)
    ensures CoversExactly(after, covered)
  {
    forall t: Time ensures LookedAt(before, t) <==> LookedAt(after, t) {
      if LookedAt(before, t) {
        var id :| id in before && before[id].status == ScanComplete && Within(t, before[id].window);
        assert id in after && after[id].status == ScanComplete;
      }
    }
  }

  /** Completing a scan whose window touches what is covered on both sides keeps the interval exact. */
  lemma CompletionCovers(
      before: map<ScanId, ScanRow>, after: map<ScanId, ScanRow>, id: ScanId, covered: Option<Interval>,
      window: Interval)
    requires CoversExactly(before, covered) && id in before && before[id].status == ScanPending
    requires id in after && after == before[id := after[id]]
    requires after[id].status == ScanComplete && after[id].window == window
    requires window.from <= window.through && Contiguous(covered, window)
    requires covered.Some? ==> covered.value.through <= window.through
    ensures CoversExactly(after, Some(Hull(covered, window)))
  {
    forall t: Time ensures LookedAt(after, t) <==> LookedAt(before, t) || Within(t, window) {
      if LookedAt(before, t) {
        var i :| i in before && before[i].status == ScanComplete && Within(t, before[i].window);
        assert i in after && after[i] == before[i];
      }
      assert after[id].window == window;
    }
  }

  lemma PolledExact(s: State, repair: bool, id: ScanId, now: Time, clock: Time)
    requires Exact(s, clock) && clock <= now && id !in s.scans && Polled(s, repair, id, now).Ok?
    ensures Exact(Polled(s, repair, id, now).value, now)
  {
    hide CoversExactly, WindowFor;
    NewScanCovers(s.scans, Polled(s, repair, id, now).value.scans, id, s.payments.covered);
    PolledWindow(s.payments.covered, repair, now, clock);
    NewWindowPast(s.scans, Polled(s, repair, id, now).value.scans, id, s.payments.covered, clock, now);
  }

  lemma PolledWindow(covered: Option<Interval>, repair: bool, now: Time, clock: Time)
    requires clock <= now && (covered.Some? ==> covered.value.through <= clock - 30)
    ensures var w := WindowFor(covered, repair, now);
      w.from <= w.through <= now - 30 && (covered.Some? ==> covered.value.through <= w.through)
  {
  }

  lemma NewWindowPast(
      before: map<ScanId, ScanRow>, after: map<ScanId, ScanRow>, id: ScanId, covered: Option<Interval>, clock: Time,
      now: Time)
    requires WindowsPast(before, covered, clock) && clock <= now
    requires after == before || (id in after && after == before[id := after[id]])
    requires after != before ==>
               && after[id].window.from <= after[id].window.through <= now - 30
               && (covered.Some? ==> covered.value.through <= after[id].window.through)
    ensures WindowsPast(after, covered, now)
  {
    forall i | IsPending(after, i) && !IsPending(before, i) ensures i == id {}
  }

  /** All scans are as before, but for a new one that is pending. */
  ghost predicate NoneCompletedButNew(before: map<ScanId, ScanRow>, after: map<ScanId, ScanRow>, id: ScanId) {
    id !in before && id in after && after[id].status == ScanPending && after == before[id := after[id]]
  }

  lemma NewScanCovers(before: map<ScanId, ScanRow>, after: map<ScanId, ScanRow>, id: ScanId, covered: Option<Interval>)
    requires CoversExactly(before, covered)
    requires after == before || NoneCompletedButNew(before, after, id)
    ensures CoversExactly(after, covered)
  {
    NoneCompletedCovers(before, after, covered);
  }

  lemma NoneLeftPending(s: State, after: map<ScanId, ScanRow>, id: ScanId)
    requires ScansSound(s) && IsPending(s.scans, id)
    requires id in after && after == s.scans[id := after[id]] && after[id].status == ScanComplete
    ensures forall i :: !IsPending(after, i)
  {
    forall i | IsPending(s.scans, i) ensures i == id { assert IsPending(s.scans, id); }
    forall i ensures !IsPending(after, i) { assert i != id ==> !IsPending(s.scans, i); }
  }

  lemma ProcessedExact(s: State, id: ReceiptId, now: Time, response: Response, clock: Time)
    requires Exact(s, clock) && clock <= now && Processed(s, id, now, response).Ok?
    ensures Exact(Processed(s, id, now, response).value, now)
  {
    hide CoversExactly, Fetched;
    ExactLater(s, Processed(s, id, now, response).value, clock, now);
  }

  lemma PagedExact(s: State, id: ScanId, now: Time, response: Response, clock: Time)
    requires Exact(s, clock) && clock <= now && ScansSound(s) && Paged(s, id, now, response).Ok?
    ensures Exact(Paged(s, id, now, response).value, now)
  {
    hide CoversExactly, Fetched, Turned, ScansSound;
    var t := Paged(s, id, now, response).value;
    if t.scans != s.scans {
      var scan := s.scans[id];
      TurnedShape(scan, response.last, response.hasMore);
      if t.scans[id].status == ScanComplete {
        CompletionCovers(s.scans, t.scans, id, s.payments.covered, scan.window);
        NoneLeftPending(s, t.scans, id);
      } else {
        NoneCompletedCovers(s.scans, t.scans, s.payments.covered);
      }
    }
  }

  lemma RecordedExact(s: State, key: TaskKey, f: Failure, now: Time, jitter: nat, clock: Time)
    requires Exact(s, clock) && clock <= now && key in s.outbox
    ensures Exact(SecondCommit(s, key, f, now, jitter), now)
  {
    hide CoversExactly, Delay;
    NoneCompletedCovers(s.scans, SecondCommit(s, key, f, now, jitter).scans, s.payments.covered);
  }

  lemma ExactLater(s: State, t: State, clock: Time, now: Time)
    requires Exact(s, clock) && clock <= now
    requires t.scans == s.scans && t.payments == s.payments && t.refunds == s.refunds
    ensures Exact(t, now)
  {
  }

  lemma DeliveredExact(s: State, key: TaskKey, d: Delivery, clock: Time)
    requires Exact(s, clock) && ScansSound(s) && clock <= d.now <= d.later && d.newScan !in s.scans
    ensures Exact(Delivered(s, key, d), d.later)
  {
    if !Deliverable(s, key, d.now) {
      ExactLater(s, s, clock, d.later);
    } else {
      hide Exact, ScansSound, Paged, Polled, Processed, SecondCommit;
      var (t, failure) := FirstCommit(s, key, d);
      FirstExact(s, key, d, clock);
      if failure.Some? { RecordedExact(t, key, failure.value, d.later, d.jitter, d.later); }
    }
  }

  lemma FirstExact(s: State, key: TaskKey, d: Delivery, clock: Time)
    requires Exact(s, clock) && ScansSound(s) && clock <= d.now <= d.later && d.newScan !in s.scans
    requires key in s.outbox
    ensures Exact(FirstCommit(s, key, d).0, d.later)
  {
    hide Exact, Paged, Polled, Processed, Refreshed;
    var task := s.outbox[key].task;
    var t := FirstCommit(s, key, d).0;
    var c := if UsesCredentials(s, task) then Refreshed(s.connector, d.now, d.exchange) else Ok(s.connector);
    if !s.orgActive || c.Err? || FirstCommit(s, key, d).1.Some? {
      ExactLater(s, t, clock, d.later);
    } else {
      var ready := s.(connector := c.value);
      ExactLater(s, ready, clock, d.later);
      match task {
        case ScanPage(id) => PagedExact(ready, id, d.later, d.response, d.later);
        case ProcessReceipt(id) => ProcessedExact(ready, id, d.later, d.response, d.later);
        case _ => PolledExact(ready, task.Repair?, d.newScan, d.later, d.later);
      }
      ExactLater(Handled(ready, task, d).value, t, d.later, d.later);
    }
  }

  /** Resources are read one after the other, from the start of a delivery to its end. */
  predicate ReadsInTime(d: Delivery) {
    d.response.Page? ==>
      var facts := d.response.facts;
      && (forall i :: 0 <= i < |facts| ==> d.now <= facts[i].readAt <= d.later)
      && (forall i, j :: 0 <= i < j < |facts| ==> facts[i].readAt <= facts[j].readAt)
  }

  /** No step happens before the one in front of it. */
  predicate InTime(w: World, step: Step) {
    match step
    case Deliver(_, d) => w.clock <= d.now <= d.later && ReadsInTime(d)
    case Schedule(now) => w.clock <= now
    case Webhook(_, _, now) => w.clock <= now
    case _ => true
  }

  predicate ClockRuns(start: World, steps: seq<Step>) {
    steps == []
    || (ClockRuns(start, steps[..|steps| - 1]) && InTime(After(start, steps[..|steps| - 1]), steps[|steps| - 1]))
  }

  lemma NextExact(w: World, step: Step)
    requires Exact(w.state, w.clock) && ScansSound(w.state) && InTime(w, step)
    ensures Exact(Next(w, step).state, Next(w, step).clock)
  {
    if step.Deliver? && Enabled(w, step) {
      hide Exact, ScansSound, Delivered;
      DeliveredExact(w.state, step.key, step.d, w.clock);
    } else {
      hide CoversExactly;
    }
  }

  lemma {:induction false} AlwaysExact(tokens: Tokens, now: Time, steps: seq<Step>)
    requires ClockRuns(Start(tokens, now), steps)
    ensures var w := After(Start(tokens, now), steps); Exact(w.state, w.clock)
  {
    if steps != [] {
      hide Exact, Next, InTime;
      AlwaysExact(tokens, now, steps[..|steps| - 1]);
      AlwaysQueueing(tokens, now, steps[..|steps| - 1]);
      NextExact(After(Start(tokens, now), steps[..|steps| - 1]), steps[|steps| - 1]);
    } else {
      NothingCoveredYet(tokens, now);
    }
  }

  lemma NothingCoveredYet(tokens: Tokens, now: Time)
    ensures Exact(Start(tokens, now).state, now)
  {
  }

  /**
   While the clock does not run backwards, the two cursors agree, and an instant is covered if and only if it lies in
   the window of a complete scan.
   */
  lemma CoverageIsWhatScansSaw(tokens: Tokens, now: Time, steps: seq<Step>, t: Time)
    requires ClockRuns(Start(tokens, now), steps)
    ensures var s := After(Start(tokens, now), steps).state;
      && s.payments == s.refunds
      && ((s.payments.covered.Some? && Within(t, s.payments.covered.value))
          <==> exists id :: id in s.scans && s.scans[id].status == ScanComplete && Within(t, s.scans[id].window))
  {
    hide Next;
    AlwaysExact(tokens, now, steps);
    var s := After(Start(tokens, now), steps).state;
    assert s.payments.covered.Some? ==> (Within(t, s.payments.covered.value) <==> LookedAt(s.scans, t));
  }

  // ----- growth and gaps -----

  predicate Grows(before: Option<Interval>, after: Option<Interval>) {
    before.Some? ==>
      after.Some? && after.value.from <= before.value.from && before.value.through <= after.value.through
  }

  predicate BothGrow(before: State, after: State) {
    Grows(before.payments.covered, after.payments.covered) && Grows(before.refunds.covered, after.refunds.covered)
  }

  lemma HandledGrows(s: State, task: Task, d: Delivery)
    ensures Handled(s, task, d).Ok? ==>
              var t := Handled(s, task, d).value;
              Grows(s.payments.covered, t.payments.covered) && Grows(s.refunds.covered, t.refunds.covered)
  {
    hide Hull, Readable, WindowFor, Turned, Contiguous;
  }

  lemma NextGrows(w: World, step: Step)
    ensures BothGrow(w.state, Next(w, step).state)
  {
    hide Handled, Refreshed, Delay;
    if step.Deliver? && Deliverable(w.state, step.key, step.d.now) {
      var s, d := w.state, step.d;
      var task := s.outbox[step.key].task;
      HandledGrows(s, task, d);
      if UsesCredentials(s, task) && Refreshed(s.connector, d.now, d.exchange).Ok? {
        HandledGrows(s.(connector := Refreshed(s.connector, d.now, d.exchange).value), task, d);
      }
    }
  }

  lemma BothGrowChain(a: State, b: State, c: State)
    requires BothGrow(a, b) && BothGrow(b, c)
    ensures BothGrow(a, c)
  {
  }

  /** Neither cursor ever loses what it covered. */
  lemma {:induction false} CoverageNeverShrinks(start: World, steps: seq<Step>, more: seq<Step>)
    ensures BothGrow(After(start, steps).state, After(start, steps + more).state)
  {
    hide Next, BothGrow;
    if more == [] {
      assert steps + more == steps;
      NothingLost(After(start, steps).state);
    } else {
      var init := more[..|more| - 1];
      CoverageNeverShrinks(start, steps, init);
      assert (steps + more)[..|steps + init|] == steps + init;
      NextGrows(After(start, steps + init), more[|more| - 1]);
      BothGrowChain(After(start, steps).state, After(start, steps + init).state, After(start, steps + more).state);
    }
  }

  lemma NothingLost(s: State)
    ensures BothGrow(s, s)
  {
  }

  /**
   The delivery that finds the empty batch of linked orders completes its scan exactly when the scan's window starts
   within what is covered. Otherwise it fails, and so does every repetition of it.
   */
  lemma LastPageCompletesIff(s: State, key: TaskKey, d: Delivery)
    requires RunsWork(s, key, d) && s.payments == s.refunds && s.connector.status == Active
    requires Refreshed(s.connector, d.now, d.exchange).Ok?
    requires Readable(Refreshed(s.connector, d.now, d.exchange).value, d.later)
    requires d.response.Page? && d.response.last.None? && StoredAll(s.entries, d.response.facts).Ok?
    requires s.outbox[key].task.ScanPage?
    requires var scan := s.scans[s.outbox[key].task.scan]; scan.phase == PHASES && scan.pageCount < PAGE_LIMIT
    ensures var id, t := s.outbox[key].task.scan, Delivered(s, key, d);
      (id in t.scans && t.scans[id].status == ScanComplete) <==> Contiguous(s.payments.covered, s.scans[id].window)
  {
    hide Refreshed, Readable, Hull, Delay;
  }

  /** What is covered ends more than 30 days before any scan can start now, and pending scans start after it. */
  ghost predicate Lost(w: World) {
    var covered := w.state.payments.covered;
    && covered.Some? && covered.value.through < w.clock - 30 - 30 * DAY
    && forall id :: IsPending(w.state.scans, id) ==> w.state.scans[id].window.from > covered.value.through
  }

  ghost predicate PendingAfter(scans: map<ScanId, ScanRow>, through: Time) {
    forall id :: IsPending(scans, id) ==> scans[id].window.from > through
  }

  lemma HandledLost(s: State, task: Task, d: Delivery, through: Time)
    requires s.payments.covered.Some? && s.payments.covered.value.through == through
    requires PendingAfter(s.scans, through) && through < d.later - 30 - 30 * DAY && Handled(s, task, d).Ok?
    ensures var t := Handled(s, task, d).value;
      t.payments.covered == s.payments.covered && PendingAfter(t.scans, through)
  {
    hide Hull, Readable;
  }

  lemma NextLost(w: World, step: Step)
    requires Lost(w) && InTime(w, step)
    ensures Lost(Next(w, step)) && Next(w, step).state.payments.covered == w.state.payments.covered
  {
    if step.Deliver? && Enabled(w, step) {
      DeliveredLost(w.state, step.key, step.d, w.state.payments.covered.value.through);
    }
  }

  lemma DeliveredLost(s: State, key: TaskKey, d: Delivery, through: Time)
    requires s.payments.covered.Some? && s.payments.covered.value.through == through
    requires PendingAfter(s.scans, through) && through < d.later - 30 - 30 * DAY
    ensures var t := Delivered(s, key, d);
      t.payments.covered == s.payments.covered && PendingAfter(t.scans, through)
  {
    if Deliverable(s, key, d.now) {
      hide Handled, Refreshed, Delay, Keeps;
      var task := s.outbox[key].task;
      var c := if UsesCredentials(s, task) then Refreshed(s.connector, d.now, d.exchange) else Ok(s.connector);
      if c.Ok? && Handled(s.(connector := c.value), task, d).Ok? {
        HandledLost(s.(connector := c.value), task, d, through);
      }
    }
  }

  lemma OneMoreStep(start: World, steps: seq<Step>, step: Step)
    ensures After(start, steps + [step]) == Next(After(start, steps), step)
    ensures ClockRuns(start, steps + [step]) <==> ClockRuns(start, steps) && InTime(After(start, steps), step)
  {
    hide Next, InTime;
    assert (steps + [step])[..|steps|] == steps;
  }

  /**
   A gap of more than 30 days never closes: no later scan, periodic or repair, reaches back to what is covered, so
   none ever completes and the coverage stays as it is.
   */
  lemma {:induction false} GapNeverCloses(start: World, steps: seq<Step>, more: seq<Step>)
    requires Lost(After(start, steps)) && ClockRuns(start, steps + more)
    ensures Lost(After(start, steps + more))
    ensures After(start, steps + more).state.payments.covered == After(start, steps).state.payments.covered
  {
    hide Next, Lost, InTime, After, ClockRuns;
    assert steps + [] == steps;
    if more != [] {
      var init, step := more[..|more| - 1], more[|more| - 1];
      assert steps + more == (steps + init) + [step];
      OneMoreStep(start, steps + init, step);
      GapNeverCloses(start, steps, init);
      NextLost(After(start, steps + init), step);
    }
  }

  // ----- conflicting revisions -----

  /** What is projected was read by this time. */
  ghost predicate ReadBy(entries: Entries, t: Time) {
    forall key :: key in entries && entries[key].current.Some? ==> entries[key].current.value.revision <= t
  }

  /** When its turn comes, the fact's projection has the instant of the read, and other content. */
  predicate MeetsOwnInstant(entries: Entries, facts: seq<Fact>, i: nat) {
    && i < |facts| && StoredAll(entries, facts[..i]).Ok?
    && var e := EntryOf(StoredAll(entries, facts[..i]).value, facts[i].key);
       && e.current.Some? && e.current.value.revision == facts[i].readAt
       && e.current.value.observation.data != facts[i].data
  }

  lemma {:induction false} ConflictsIff(entries: Entries, facts: seq<Fact>)
    ensures StoredAll(entries, facts).Err? <==> exists i :: MeetsOwnInstant(entries, facts, i)
  {
    if facts != [] {
      var init, n := facts[..|facts| - 1], |facts| - 1;
      ConflictsIff(entries, init);
      forall i: nat | i < n ensures MeetsOwnInstant(entries, init, i) <==> MeetsOwnInstant(entries, facts, i) {
        assert init[..i] == facts[..i];
      }
      assert StoredAll(entries, init).Ok? ==>
          (MeetsOwnInstant(entries, facts, n) <==> StoredAll(entries, facts).Err?);
      if StoredAll(entries, init).Err? {
        var i :| MeetsOwnInstant(entries, init, i);
        assert MeetsOwnInstant(entries, facts, i);
      }
    }
  }

  /** Storing reads brings the projections up to the last of them. */
  lemma {:induction false} StoredReadBy(entries: Entries, facts: seq<Fact>, t: Time)
    requires ReadBy(entries, t) && forall i :: 0 <= i < |facts| ==> facts[i].readAt <= t
    ensures StoredAll(entries, facts).Ok? ==> ReadBy(StoredAll(entries, facts).value, t)
  {
    hide Projected;
    if facts != [] {
      StoredReadBy(entries, facts[..|facts| - 1], t);
      StoredRevision(facts[|facts| - 1]);
    }
  }

  lemma StoredRevision(f: Fact)
    ensures forall e: Entry :: Overwrites(e, ReadOf(f)) ==>
              Stored(f.key.kind, e, ReadOf(f)).current == Some(Projected(f.key.kind, e.current, ReadOf(f)))
              && Projected(f.key.kind, e.current, ReadOf(f)).revision == f.readAt
  {
  }

  lemma DeliveredReadBy(s: State, key: TaskKey, d: Delivery, clock: Time)
    requires ReadBy(s.entries, clock) && clock <= d.now <= d.later && ReadsInTime(d)
    ensures ReadBy(Delivered(s, key, d).entries, d.later)
  {
    if d.response.Page? { StoredReadBy(s.entries, d.response.facts, d.later); }
    hide StoredAll, Refreshed, Readable, Delay, Turned, Hull, MayExtend, ReadBy;
    ReadLater(s.entries, clock, d.later);
    EntriesAfter(s, key, d);
  }

  lemma ReadLater(entries: Entries, clock: Time, t: Time)
    requires ReadBy(entries, clock) && clock <= t
    ensures ReadBy(entries, t)
  {
  }

  lemma HandledEntries(s: State, task: Task, d: Delivery)
    requires Handled(s, task, d).Ok?
    ensures var t := Handled(s, task, d).value;
      || t.entries == s.entries
      || (d.response.Page? && Ok(t.entries) == StoredAll(s.entries, d.response.facts))
  {
    hide StoredAll, Readable, Turned, Hull, MayExtend, WindowFor;
  }

  /** A delivery leaves the projections alone, or stores all that it read. */
  lemma EntriesAfter(s: State, key: TaskKey, d: Delivery)
    ensures var t := Delivered(s, key, d);
      || t.entries == s.entries
      || (d.response.Page? && Ok(t.entries) == StoredAll(s.entries, d.response.facts))
  {
    hide Handled, StoredAll, Refreshed, Delay, KnowsConnector, FailScan, FailPending, FailReceipt;
    if Deliverable(s, key, d.now) {
      var task := s.outbox[key].task;
      var c := if UsesCredentials(s, task) then Refreshed(s.connector, d.now, d.exchange) else Ok(s.connector);
      if c.Ok? && Handled(s.(connector := c.value), task, d).Ok? {
        HandledEntries(s.(connector := c.value), task, d);
      }
    }
  }

  lemma NextReadBy(w: World, step: Step)
    requires ReadBy(w.state.entries, w.clock) && InTime(w, step)
    ensures ReadBy(Next(w, step).state.entries, Next(w, step).clock)
  {
    hide Delivered, TrailsAfter, IssuedAfter, ReadBy, ReadsInTime;
    if step.Deliver? && Enabled(w, step) {
      DeliveredReadBy(w.state, step.key, step.d, w.clock);
    } else if Next(w, step).clock != w.clock {
      ReadLater(w.state.entries, w.clock, Next(w, step).clock);
    }
  }

  lemma {:induction false} AlwaysReadBy(tokens: Tokens, now: Time, steps: seq<Step>)
    requires ClockRuns(Start(tokens, now), steps)
    ensures var w := After(Start(tokens, now), steps); ReadBy(w.state.entries, w.clock)
  {
    if steps != [] {
      hide Next, InTime, ReadBy;
      AlwaysReadBy(tokens, now, steps[..|steps| - 1]);
      NextReadBy(After(Start(tokens, now), steps[..|steps| - 1]), steps[|steps| - 1]);
    }
  }

  /** The facts were read by this time, and each is reflected in its projection. */
  ghost predicate AllReflected(entries: Entries, facts: seq<Fact>, t: Time) {
    forall f :: f in facts ==> f.readAt <= t && Reflects(EntryOf(entries, f.key), ReadOf(f))
  }

  /** What is reflected stays so when later reads are stored. */
  lemma {:induction false} LaterReadsKeep(entries: Entries, facts: seq<Fact>, f: Fact)
    requires Reflects(EntryOf(entries, f.key), ReadOf(f)) && StoredAll(entries, facts).Ok?
    requires forall i :: 0 <= i < |facts| ==> f.readAt <= facts[i].readAt
    ensures Reflects(EntryOf(StoredAll(entries, facts).value, f.key), ReadOf(f))
  {
    if facts != [] {
      hide Reflects, StoredIn;
      var init, last := facts[..|facts| - 1], facts[|facts| - 1];
      LaterReadsKeep(entries, init, f);
      StoredInKeeps(StoredAll(entries, init).value, f.key, ReadOf(f), last.key, ReadOf(last));
    }
  }

  lemma {:induction false} ReadsReflected(entries: Entries, facts: seq<Fact>, t: Time)
    requires StoredAll(entries, facts).Ok? && forall i :: 0 <= i < |facts| ==> facts[i].readAt <= t
    requires forall i, j :: 0 <= i < j < |facts| ==> facts[i].readAt <= facts[j].readAt
    ensures AllReflected(StoredAll(entries, facts).value, facts, t)
  {
    if facts != [] {
      hide Reflects, StoredIn;
      var init, last := facts[..|facts| - 1], facts[|facts| - 1];
      ReadsReflected(entries, init, t);
      var before := StoredAll(entries, init).value;
      StoredInReflects(before, last.key, ReadOf(last));
      forall f | f in init ensures Reflects(EntryOf(StoredIn(before, last.key, ReadOf(last)), f.key), ReadOf(f)) {
        StoredInKeeps(before, f.key, ReadOf(f), last.key, ReadOf(last));
      }
    }
  }

  lemma LaterReadsKeepAll(entries: Entries, read: seq<Fact>, facts: seq<Fact>, clock: Time, t: Time)
    requires AllReflected(entries, read, clock) && StoredAll(entries, facts).Ok? && clock <= t
    requires forall i :: 0 <= i < |facts| ==> clock <= facts[i].readAt
    ensures AllReflected(StoredAll(entries, facts).value, read, t)
  {
    hide Reflects, StoredAll;
    forall f | f in read ensures Reflects(EntryOf(StoredAll(entries, facts).value, f.key), ReadOf(f)) {
      LaterReadsKeep(entries, facts, f);
    }
  }

  /** All that a scan has read is reflected. */
  ghost predicate TrailReflected(entries: Entries, trail: seq<Turn>, t: Time) {
    forall i :: 0 <= i < |trail| ==>
      trail[i].response.Page? && AllReflected(entries, trail[i].response.facts, t)
  }

  ghost predicate TrailsReflected(w: World) {
    forall id :: id in w.trails ==> TrailReflected(w.state.entries, w.trails[id], w.clock)
  }

  /** A page that is turned was read and is stored. */
  lemma TurnStores(s: State, key: TaskKey, d: Delivery)
    requires Turns(s, key, d)
    ensures d.response.Page? && StoredAll(s.entries, d.response.facts) == Ok(Delivered(s, key, d).entries)
  {
    hide StoredAll, Refreshed, SecondCommit, Paged;
    var id, c := s.outbox[key].task.scan, Refreshed(s.connector, d.now, d.exchange);
    if c.Ok? && Paged(s.(connector := c.value), id, d.later, d.response).Ok? {
      PagedStores(s.(connector := c.value), id, d.later, d.response);
    }
    var (t, failure) := FirstCommit(s, key, d);
    if failure.Some? { RecordedRow(t, key, failure.value, d.later, d.jitter, id); }
  }

  lemma PagedStores(s: State, id: ScanId, now: Time, response: Response)
    requires IsPending(s.scans, id) && Paged(s, id, now, response).Ok?
    ensures response.Page? && StoredAll(s.entries, response.facts) == Ok(Paged(s, id, now, response).value.entries)
  {
    hide StoredAll, MayExtend, Turned, Hull, Readable;
  }

  lemma TrailLater(before: Entries, after: Entries, trail: seq<Turn>, facts: seq<Fact>, clock: Time, t: Time)
    requires TrailReflected(before, trail, clock) && clock <= t
    requires before == after || StoredAll(before, facts) == Ok(after)
    requires before != after ==> forall i :: 0 <= i < |facts| ==> clock <= facts[i].readAt
    ensures TrailReflected(after, trail, t)
  {
    hide StoredAll, AllReflected;
    forall i | 0 <= i < |trail| ensures AllReflected(after, trail[i].response.facts, t) {
      if before == after {
        ReflectedLater(after, trail[i].response.facts, clock, t);
      } else {
        LaterReadsKeepAll(before, trail[i].response.facts, facts, clock, t);
      }
    }
  }

  lemma ReflectedLater(entries: Entries, facts: seq<Fact>, clock: Time, t: Time)
    requires AllReflected(entries, facts, clock) && clock <= t
    ensures AllReflected(entries, facts, t)
  {
  }

  lemma DeliverReflected(w: World, key: TaskKey, d: Delivery)
    requires TrailsReflected(w) && InTime(w, Deliver(key, d)) && Enabled(w, Deliver(key, d))
    ensures TrailsReflected(Next(w, Deliver(key, d)))
  {
    hide Turns, Delivered, TrailReflected, AllReflected, StoredAll;
    var t := Next(w, Deliver(key, d));
    var facts := if d.response.Page? then d.response.facts else [];
    EntriesAfter(w.state, key, d);
    forall id | id in t.trails ensures TrailReflected(t.state.entries, t.trails[id], d.later) {
      var trail := TrailOf(w.trails, id);
      NothingReadYet(w.state.entries, w.clock);
      TrailLater(w.state.entries, t.state.entries, trail, facts, w.clock, d.later);
      if t.trails[id] != trail {
        TurnStores(w.state, key, d);
        ReadsReflected(w.state.entries, facts, d.later);
        OneMoreTurn(t.state.entries, trail, t.trails[id][|trail|], d.later);
      }
    }
  }

  lemma NothingReadYet(entries: Entries, t: Time)
    ensures TrailReflected(entries, [], t)
  {
  }

  lemma OneMoreTurn(entries: Entries, trail: seq<Turn>, turn: Turn, t: Time)
    requires TrailReflected(entries, trail, t) && turn.response.Page?
    requires AllReflected(entries, turn.response.facts, t)
    ensures TrailReflected(entries, trail + [turn], t)
  {
    hide AllReflected;
  }

  lemma NextReflected(w: World, step: Step)
    requires TrailsReflected(w) && InTime(w, step)
    ensures TrailsReflected(Next(w, step))
  {
    hide Delivered, TrailsAfter, IssuedAfter, TrailReflected, ReadsInTime;
    if step.Deliver? && Enabled(w, step) {
      DeliverReflected(w, step.key, step.d);
    } else {
      var t := Next(w, step);
      forall id | id in t.trails ensures TrailReflected(t.state.entries, t.trails[id], t.clock) {
        TrailLater(w.state.entries, t.state.entries, w.trails[id], [], w.clock, t.clock);
      }
    }
  }

  lemma {:induction false} AlwaysReflected(tokens: Tokens, now: Time, steps: seq<Step>)
    requires ClockRuns(Start(tokens, now), steps)
    ensures TrailsReflected(After(Start(tokens, now), steps))
  {
    if steps != [] {
      hide Next, InTime, TrailsReflected;
      AlwaysReflected(tokens, now, steps[..|steps| - 1]);
      NextReflected(After(Start(tokens, now), steps[..|steps| - 1]), steps[|steps| - 1]);
    } else {
      NothingReflectedYet(tokens, now);
    }
  }

  lemma NothingReflectedYet(tokens: Tokens, now: Time)
    ensures TrailsReflected(Start(tokens, now))
  {
  }

  /**
   In every run whose clock does not run backwards, each fact that any scan has read is reflected: its projection has
   its content, or a revision that is not older than the read.
   */
  lemma WhatWasReadIsReflected(tokens: Tokens, now: Time, steps: seq<Step>, id: ScanId, turn: Turn)
    requires ClockRuns(Start(tokens, now), steps) && turn in TrailOf(After(Start(tokens, now), steps).trails, id)
    ensures turn.response.Page?
    ensures forall f :: f in turn.response.facts ==>
              Reflects(EntryOf(After(Start(tokens, now), steps).state.entries, f.key), ReadOf(f))
  {
    hide Next, ClockRuns, Reflects;
    AlwaysReflected(tokens, now, steps);
    var w := After(Start(tokens, now), steps);
    assert TrailReflected(w.state.entries, w.trails[id], w.clock);
  }

  /** Each read comes after the one before it, and after everything that happened earlier. */
  predicate ReadsRise(facts: seq<Fact>, clock: Time) {
    && (forall i :: 0 <= i < |facts| ==> clock < facts[i].readAt)
    && (forall i, j :: 0 <= i < j < |facts| ==> facts[i].readAt < facts[j].readAt)
  }

  lemma {:induction false} RisingReadsStored(entries: Entries, facts: seq<Fact>, clock: Time)
    requires ReadBy(entries, clock) && ReadsRise(facts, clock)
    ensures StoredAll(entries, facts).Ok?
    ensures ReadBy(StoredAll(entries, facts).value, if facts == [] then clock else facts[|facts| - 1].readAt)
  {
    if facts != [] {
      hide Projected;
      RisingReadsStored(entries, facts[..|facts| - 1], clock);
      StoredRevision(facts[|facts| - 1]);
    }
  }

  /**
   In every run whose clock does not run backwards, what a delivery reads conflicts if and only if some fact's
   projection has the very instant of its read and other content when its turn comes. So nothing conflicts while each
   read comes after the one before it.
   */
  lemma ReadsConflictIff(tokens: Tokens, now: Time, steps: seq<Step>, key: TaskKey, d: Delivery)
    requires ClockRuns(Start(tokens, now), steps) && InTime(After(Start(tokens, now), steps), Deliver(key, d))
    requires d.response.Page?
    ensures var w, facts := After(Start(tokens, now), steps), d.response.facts;
      && (StoredAll(w.state.entries, facts).Err? <==> exists i :: MeetsOwnInstant(w.state.entries, facts, i))
      && (ReadsRise(facts, w.clock) ==> StoredAll(w.state.entries, facts).Ok?)
  {
    hide ClockRuns, InTime;
    var w, facts := After(Start(tokens, now), steps), d.response.facts;
    AlwaysReadBy(tokens, now, steps);
    ConflictsIff(w.state.entries, facts);
    if ReadsRise(facts, w.clock) { RisingReadsStored(w.state.entries, facts, w.clock); }
  }

  /**
   When a fact conflicts with what is projected at its revision, the delivery takes back all that it stored, and the
   mark on the coverage with it: the cursors lose their completeness exactly when the row has used its last attempt.
   */
  lemma ConflictDropsCompleteIff(s: State, key: TaskKey, d: Delivery)
    requires RunsWork(s, key, d) && s.connector.status == Active
    requires Refreshed(s.connector, d.now, d.exchange).Ok?
    requires Readable(Refreshed(s.connector, d.now, d.exchange).value, d.later)
    requires d.response.Page? && StoredAll(s.entries, d.response.facts).Err?
    ensures var t := Delivered(s, key, d);
      && t.entries == s.entries && key in t.outbox
      && (t.outbox[key].status == Dead <==> s.outbox[key].attempts + 1 >= MAX_ATTEMPTS)
      && (s.payments.complete ==> (!t.payments.complete <==> t.outbox[key].status == Dead))
      && (s.refunds.complete ==> (!t.refunds.complete <==> t.outbox[key].status == Dead))
      && t.payments.covered == s.payments.covered && t.refunds.covered == s.refunds.covered
  {
    hide Refreshed, Readable, Delay, StoredAll;
    ConflictFails(s.(connector := Refreshed(s.connector, d.now, d.exchange).value), s.outbox[key].task, d);
  }

  lemma ConflictFails(s: State, task: Task, d: Delivery)
    requires UsesCredentials(s, task) && Readable(s.connector, d.later)
    requires d.response.Page? && StoredAll(s.entries, d.response.facts).Err?
    ensures Handled(s, task, d) == Err(TRANSIENT)
  {
    hide Readable, StoredAll;
  }
}
