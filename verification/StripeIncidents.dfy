/** Runs of the scan worker in which the coverage of a payment account goes wrong. */
module StripeIncidents {
  import opened Wrappers
  import opened Domain
  import opened Intervals
  import opened Projections
  import opened StripeWorker
  import opened StripeRuns
  import opened StripeCoverage

  const TOKENS := Tokens("access", "refresh")

  /** A delivery at one instant, with no refresh. */
  function At(now: Time, response: Response, newScan: ScanId): Delivery {
    Delivery(now, Refused, now, response, newScan, 0)
  }

  function LastPage(facts: seq<Fact>): Response { Page(facts, None, false) }

  /** The connector can be read without a refresh. */
  predicate Usable(s: State, now: Time) {
    s.orgActive && s.connector.status == Active && s.connector.tokens.Some?
    && s.connector.expiresAt.Some? && s.connector.expiresAt.value > now
  }

  /** The scan waits for its n-th page, and its row can be delivered. */
  predicate Waits(s: State, id: ScanId, n: nat, now: Time) {
    && id in s.scans && s.scans[id].status == ScanPending && s.scans[id].pageCount == n
    && s.scans[id].providerCursor == ""
    && PageOf(id, n) in s.outbox && s.outbox[PageOf(id, n)].task == ScanPage(id)
    && Live(s.outbox[PageOf(id, n)]) && s.outbox[PageOf(id, n)].availableAt <= now
    && s.outbox[PageOf(id, n)].attempts == 0
    && PageOf(id, n + 1) !in s.outbox
  }

  lemma NoRefresh(s: State, now: Time)
    requires Usable(s, now)
    ensures Refreshed(s.connector, now, Refused) == Ok(s.connector) && s.(connector := s.connector) == s
  {
  }

  /** A page that ends a listing, or the recheck, with nothing to store. */
  lemma PageEnds(s: State, id: ScanId, n: nat, now: Time)
    requires Usable(s, now) && Waits(s, id, n, now) && s.scans[id].phase <= PHASES && n < PAGE_LIMIT
    ensures var scan, paged := s.scans[id], Paged(s, id, now, LastPage([]));
      && (scan.phase < PHASES ==>
            paged == Ok(s.(scans := s.scans[id := scan.(phase := scan.phase + 1, pageCount := n + 1)],
                           outbox := s.outbox[PageOf(id, n + 1) := Row(ScanPage(id), RowPending, 0, now)])))
      && (scan.phase == PHASES && MayExtend(s, scan.window) ==>
            paged == Ok(s.(scans := s.scans[id := scan.(status := ScanComplete, pageCount := n + 1)],
                           payments := Extended(s.payments, scan.window, now),
                           refunds := Extended(s.refunds, scan.window, now))))
  {
    hide Hull, MayExtend;
  }

  /** A listing that ends on its first page moves the scan to the next phase. */
  lemma PhaseTurns(s: State, id: ScanId, n: nat, now: Time, newScan: ScanId)
    requires Usable(s, now) && Waits(s, id, n, now) && s.scans[id].phase < PHASES && n < PAGE_LIMIT
    ensures var t := Delivered(s, PageOf(id, n), At(now, LastPage([]), newScan));
      && t.scans == s.scans[id := s.scans[id].(phase := s.scans[id].phase + 1, pageCount := n + 1)]
      && t.outbox == s.outbox[PageOf(id, n) := s.outbox[PageOf(id, n)].(status := Done)][
                       PageOf(id, n + 1) := Row(ScanPage(id), RowPending, 0, now)]
      && t == s.(scans := t.scans, outbox := t.outbox)
  {
    hide Paged, Refreshed, MayExtend, Extended;
    NoRefresh(s, now);
    PageEnds(s, id, n, now);
  }

  /** The empty batch of linked orders completes the scan. */
  lemma RecheckCompletes(s: State, id: ScanId, n: nat, now: Time, newScan: ScanId)
    requires Usable(s, now) && Waits(s, id, n, now) && s.scans[id].phase == PHASES && n < PAGE_LIMIT
    requires MayExtend(s, s.scans[id].window)
    ensures var t := Delivered(s, PageOf(id, n), At(now, LastPage([]), newScan));
      && t.scans == s.scans[id := s.scans[id].(status := ScanComplete, pageCount := n + 1)]
      && t.outbox == s.outbox[PageOf(id, n) := s.outbox[PageOf(id, n)].(status := Done)]
      && t.payments == Extended(s.payments, s.scans[id].window, now)
      && t.refunds == Extended(s.refunds, s.scans[id].window, now)
      && t == s.(scans := t.scans, outbox := t.outbox, payments := t.payments, refunds := t.refunds)
  {
    hide Paged, Refreshed, MayExtend, Extended;
    NoRefresh(s, now);
    PageEnds(s, id, n, now);
  }

  /** A scheduled poll starts a scan. */
  lemma PollStarts(s: State, bucket: int, now: Time, id: ScanId)
    requires Usable(s, now) && !AnyPending(s.scans) && id !in s.scans && PageOf(id, 0) !in s.outbox
    requires var key := Periodic(bucket);
      && key in s.outbox && (s.outbox[key].task == Poll || s.outbox[key].task == Repair)
      && Live(s.outbox[key]) && s.outbox[key].availableAt <= now
    ensures var key, t := Periodic(bucket), Delivered(s, Periodic(bucket), At(now, LastPage([]), id));
      var repair := s.outbox[key].task == Repair;
      && t.scans == s.scans[id := ScanRow(WindowFor(s.payments.covered, repair, now), 0, "", 0, ScanPending, repair)]
      && t.outbox == s.outbox[key := s.outbox[key].(status := Done)][
                       PageOf(id, 0) := Row(ScanPage(id), RowPending, 0, now)]
      && t == s.(scans := t.scans, outbox := t.outbox)
  {
    hide WindowFor;
  }

  const START := Start(TOKENS, 0)

  /** The connection is still that of time zero. */
  ghost predicate Connects(s: State) { s.orgActive && s.connector == START.state.connector }

  /** A scan of the account connected at time zero, waiting for its n-th page, with nothing left but that. */
  ghost predicate Scanning(w: World, id: ScanId, n: nat, now: Time) {
    && Connects(w.state) && Usable(w.state, now) && w.clock == now
    && Waits(w.state, id, n, now) && w.state.scans[id].phase == n
    && (forall k :: k > n ==> PageOf(id, k) !in w.state.outbox)
    && (forall i :: i in w.state.scans && i != id ==> w.state.scans[i].status == ScanComplete)
  }

  const SPARE: ScanId := 9

  function PageStep(id: ScanId, n: nat, now: Time, facts: seq<Fact>): Step {
    Deliver(PageOf(id, n), At(now, LastPage(facts), SPARE))
  }

  ghost predicate Reached(steps: seq<Step>, w: World) { ClockRuns(START, steps) && After(START, steps) == w }

  /** The only new rows are of this scan's pages. */
  ghost predicate OnlyPages(before: map<TaskKey, Row>, after: map<TaskKey, Row>, id: ScanId) {
    forall key :: key in after ==> key in before || (key.PageOf? && key.scan == id)
  }

  lemma NextPhase(steps: seq<Step>, w: World, id: ScanId, n: nat, now: Time)
    requires Reached(steps, w) && Scanning(w, id, n, now) && n < PHASES && SPARE !in w.state.scans
    ensures var all := steps + [PageStep(id, n, now, [])];
      var t := After(START, all);
      && Reached(all, t) && Scanning(t, id, n + 1, now) && t.state.scans.Keys == w.state.scans.Keys
      && t.state.scans[id].window == w.state.scans[id].window
      && t.state.entries == w.state.entries
      && t.state.payments == w.state.payments && t.state.refunds == w.state.refunds
      && OnlyPages(w.state.outbox, t.state.outbox, id)
  {
    hide Delivered, TrailsAfter, IssuedAfter;
    var step := PageStep(id, n, now, []);
    OneMoreStep(START, steps, step);
    PhaseTurns(w.state, id, n, now, SPARE);
  }

  function ScanSteps(id: ScanId, now: Time): seq<Step> {
    [PageStep(id, 0, now, []), PageStep(id, 1, now, []), PageStep(id, 2, now, []), PageStep(id, 3, now, []),
     PageStep(id, 4, now, [])]
  }

  /** All pages of a scan of an empty account: it completes and extends the coverage. */
  lemma ScanRuns(steps: seq<Step>, w: World, id: ScanId, now: Time)
    requires Reached(steps, w) && Scanning(w, id, 0, now) && SPARE !in w.state.scans
    requires MayExtend(w.state, w.state.scans[id].window)
    ensures var all := steps + ScanSteps(id, now);
      var t := After(START, all);
      && Reached(all, t) && t.clock == now && Connects(t.state) && t.state.scans.Keys == w.state.scans.Keys
      && (forall i :: i in t.state.scans ==> t.state.scans[i].status == ScanComplete)
      && t.state.entries == w.state.entries
      && t.state.payments == Extended(w.state.payments, w.state.scans[id].window, now)
      && t.state.refunds == Extended(w.state.refunds, w.state.scans[id].window, now)
      && OnlyPages(w.state.outbox, t.state.outbox, id)
  {
    hide Scanning, Reached, Usable, Extended, After;
    var a := steps + [PageStep(id, 0, now, [])];
    NextPhase(steps, w, id, 0, now);
    var b := a + [PageStep(id, 1, now, [])];
    NextPhase(a, After(START, a), id, 1, now);
    var c := b + [PageStep(id, 2, now, [])];
    NextPhase(b, After(START, b), id, 2, now);
    var d := c + [PageStep(id, 3, now, [])];
    NextPhase(c, After(START, c), id, 3, now);
    LastTurn(d, After(START, d), id, now);
    assert steps + ScanSteps(id, now) == d + [PageStep(id, 4, now, [])];
  }

  lemma LastTurn(steps: seq<Step>, w: World, id: ScanId, now: Time)
    requires Reached(steps, w) && Scanning(w, id, 4, now) && SPARE !in w.state.scans
    requires MayExtend(w.state, w.state.scans[id].window)
    ensures var all := steps + [PageStep(id, 4, now, [])];
      var t := After(START, all);
      && Reached(all, t) && t.clock == now && Connects(t.state) && t.state.scans.Keys == w.state.scans.Keys
      && (forall i :: i in t.state.scans ==> t.state.scans[i].status == ScanComplete)
      && t.state.entries == w.state.entries
      && t.state.payments == Extended(w.state.payments, w.state.scans[id].window, now)
      && t.state.refunds == Extended(w.state.refunds, w.state.scans[id].window, now)
      && OnlyPages(w.state.outbox, t.state.outbox, id)
  {
    hide Delivered, TrailsAfter, IssuedAfter, MayExtend, Extended;
    var step := PageStep(id, 4, now, []);
    OneMoreStep(START, steps, step);
    RecheckCompletes(w.state, id, 4, now, SPARE);
  }

  function PollSteps(now: Time, id: ScanId): seq<Step> {
    [Schedule(now), Deliver(Periodic(now / 300), At(now, LastPage([]), id))]
  }

  ghost predicate Quiet(w: World, now: Time, id: ScanId) {
    && w.clock <= now && Connects(w.state) && Usable(w.state, now) && id !in w.state.scans
    && (forall k :: PageOf(id, k) !in w.state.outbox)
    && (forall i :: i in w.state.scans ==> w.state.scans[i].status == ScanComplete)
  }

  lemma ScheduleRuns(steps: seq<Step>, w: World, now: Time, id: ScanId)
    requires Reached(steps, w) && Quiet(w, now, id) && Periodic(now / 300) !in w.state.outbox
    ensures var all := steps + [Schedule(now)];
      var t := After(START, all);
      && Reached(all, t) && t.clock == now && Quiet(t, now, id)
      && t.state == w.state.(outbox := w.state.outbox[Periodic(now / 300) :=
                        Row(if now / 300 % 288 == 0 then Repair else Poll, RowPending, 0, now)])
  {
    OneMoreStep(START, steps, Schedule(now));
  }

  lemma PollDelivers(steps: seq<Step>, w: World, now: Time, id: ScanId)
    requires Reached(steps, w) && Quiet(w, now, id)
    requires var key := Periodic(now / 300);
      && key in w.state.outbox
      && w.state.outbox[key] == Row(if now / 300 % 288 == 0 then Repair else Poll, RowPending, 0, now)
    ensures var all := steps + [Deliver(Periodic(now / 300), At(now, LastPage([]), id))];
      var t := After(START, all);
      && Reached(all, t) && Scanning(t, id, 0, now) && t.state.scans.Keys == w.state.scans.Keys + {id}
      && t.state.scans[id].window == WindowFor(w.state.payments.covered, now / 300 % 288 == 0, now)
      && t.state.entries == w.state.entries
      && t.state.payments == w.state.payments && t.state.refunds == w.state.refunds
      && (forall key :: key in t.state.outbox ==> key in w.state.outbox || key == PageOf(id, 0))
  {
    hide Delivered, TrailsAfter, IssuedAfter, WindowFor;
    var deliver := Deliver(Periodic(now / 300), At(now, LastPage([]), id));
    OneMoreStep(START, steps, deliver);
    PollStarts(w.state, now / 300, now, id);
  }

  /** A scheduled poll starts a scan when none is pending. */
  lemma PollRuns(steps: seq<Step>, w: World, now: Time, id: ScanId)
    requires Reached(steps, w) && Quiet(w, now, id) && Periodic(now / 300) !in w.state.outbox
    ensures var all := steps + PollSteps(now, id);
      var t := After(START, all);
      && Reached(all, t) && Scanning(t, id, 0, now) && t.state.scans.Keys == w.state.scans.Keys + {id}
      && t.state.scans[id].window == WindowFor(w.state.payments.covered, now / 300 % 288 == 0, now)
      && t.state.entries == w.state.entries
      && t.state.payments == w.state.payments && t.state.refunds == w.state.refunds
      && (forall key :: key in t.state.outbox ==>
            key in w.state.outbox || key == Periodic(now / 300) || key == PageOf(id, 0))
  {
    hide Reached, Quiet, Scanning, WindowFor, After;
    ScheduleRuns(steps, w, now, id);
    var scheduled := steps + [Schedule(now)];
    PollDelivers(scheduled, After(START, scheduled), now, id);
    assert steps + PollSteps(now, id) == scheduled + [Deliver(Periodic(now / 300), At(now, LastPage([]), id))];
  }

  /** The steps of the first scan, at time zero. */
  function FirstScan(): seq<Step> { [] + PollSteps(0, 1) + ScanSteps(1, 0) }

  lemma FirstScanRuns()
    ensures var t := After(START, FirstScan());
      && Reached(FirstScan(), t) && t.clock == 0 && Connects(t.state) && t.state.scans.Keys == {1}
      && (forall i :: i in t.state.scans ==> t.state.scans[i].status == ScanComplete)
      && t.state.entries == map[]
      && t.state.payments == Extended(NO_COVERAGE, WindowFor(None, true, 0), 0) == t.state.refunds
      && forall key :: key in t.state.outbox ==> key == Periodic(0) || (key.PageOf? && key.scan == 1)
  {
    hide ScanSteps, PollSteps;
    PollRuns([], START, 0, 1);
    var steps := [] + PollSteps(0, 1);
    ScanRuns(steps, After(START, steps), 1, 0);
  }

  /** A run after which coverage can never be extended again: forty days without a scan. */
  lemma GapHappens()
    ensures exists steps :: ClockRuns(START, steps) && StripeCoverage.Lost(After(START, steps))
  {
    hide FirstScan;
    FirstScanRuns();
    var steps := FirstScan();
    OneMoreStep(START, steps, Schedule(40 * DAY));
    assert StripeCoverage.Lost(After(START, steps + [Schedule(40 * DAY)]));
  }

  /** A payment as it is read at some time. */
  function PaymentFact(status: string, readAt: Time): Fact {
    Fact(Key("payment", "pi_1"), Data(status, None, map[], ""), readAt)
  }

  /** One page lists a payment twice, and it is read twice at one instant, before and after it changes. */
  lemma TwoReadsConflict(entries: Entries, first: Fact, second: Fact)
    requires first.key !in entries && first.key == second.key
    requires first.readAt == second.readAt && first.data != second.data
    ensures StoredAll(entries, [first, second]).Err?
  {
    assert [first, second][..1] == [first] && [first][..0] == [];
    assert StoredAll(entries, [first]) == Ok(StoredIn(entries, first.key, ReadOf(first)));
  }

  /** After these steps the page conflicts, and its delivery leaves both cursors complete. */
  ghost predicate StaysComplete(steps: seq<Step>, page: Step) {
    && ClockRuns(START, steps + [page]) && page.Deliver? && page.d.response.Page?
    && var w, t := After(START, steps), Next(After(START, steps), page);
       && RunsWork(w.state, page.key, page.d) && StoredAll(w.state.entries, page.d.response.facts).Err?
       && w.state.payments.complete && t.state.payments.complete && t.state.refunds.complete
  }

  /**
   The run of a conflict: after a first scan, a page of the second lists a payment twice, and the two reads fall on one
   instant of the clock with the payment changing in between.
   */
  lemma ConflictKeepsComplete()
    ensures exists steps, page :: StaysComplete(steps, page)
  {
    hide FirstScan, PollSteps, Delivered, StoredAll, WindowFor, TrailsAfter, IssuedAfter, Hull;
    var first, second := PaymentFact("processing", 300), PaymentFact("succeeded", 300);
    assert first.data.status[0] != second.data.status[0];
    FirstScanRuns();
    PollRuns(FirstScan(), After(START, FirstScan()), 300, 2);
    var steps, page := FirstScan() + PollSteps(300, 2), PageStep(2, 0, 300, [first, second]);
    var w := After(START, steps);
    TwoReadsConflict(w.state.entries, first, second);
    ConflictDropsCompleteIff(w.state, page.key, page.d);
    OneMoreStep(START, steps, page);
    assert StaysComplete(steps, page);
  }
}
