/** From the shop's orders to the server's projections: what has arrived when a scan is finished. */
module WooArrival {
  import opened Wrappers
  import opened Intervals
  import opened Projections
  import opened WooBatches
  import opened WooServer
  import opened WooRecords
  import opened Plugin
  import opened Paging
  import opened WooProtocol

  // ----- the run of the latest scan -----

  /** A scan as it started, and what happened to it since. */
  datatype Run = Run(start: Scan, steps: seq<Paging.Step>)

  const NO_RUN := Run(Scan(0, [], 0, 1, Interval(0, 0), [], None, 0), [])

  function RunAfter(run: Run, w: World, step: WooProtocol.Step): Run {
    if !Enabled(w, step) then run
    else
      match step
      case Start(repair, now, id, query) =>
        var started := Started(w.scan, w.cursor, repair, now, id, query);
        if w.scan.None? && started.Some? then Run(started.value, []) else run
      case Send(extract, requestId, now) => run.(steps := run.steps + [Prepare(extract, requestId, now)])
      case Receive(reply) => run.(steps := run.steps + [Settle(reply)])
      case _ => run
  }

  /** The run of the scan under way, or of the last one. */
  function RunOf(steps: seq<WooProtocol.Step>): Run {
    if steps == [] then NO_RUN
    else
      var init := steps[..|steps| - 1];
      RunAfter(RunOf(init), WooProtocol.After(init), steps[|steps| - 1])
  }

  function ProgressOf(run: Run): Progress { Paging.After(run.start, run.steps) }

  /** The contents are stored as pages of the server. */
  predicate AllStored(s: Server, contents: seq<Content>) {
    forall c :: c in contents ==> KeyOf(c) in s.pages && s.pages[KeyOf(c)].content == c
  }

  /** The saved scan is where its own run has brought it, and the server has the pages acknowledged to it. */
  ghost predicate Tracks(w: World, run: Run) {
    w.scan.Some? ==>
      && Fresh(run.start) && ProgressOf(run).scan == w.scan
      && AllStored(w.history.server, ProgressOf(run).acknowledged)
  }

  lemma RunMoves(run: Run, step: Paging.Step)
    ensures ProgressOf(run.(steps := run.steps + [step])) == Moved(ProgressOf(run), step)
  {
    assert (run.steps + [step])[..|run.steps|] == run.steps;
  }

  /** A completing answer comes from a stored page. */
  lemma CompletedIsStored(w: World, reply: Option<Ack>)
    requires WooProtocol.Sound(w) && Enabled(w, Receive(reply)) && Completes(reply, w.scan.value.pending.value)
    ensures Outcome(w.history.server, w.scan.value.pending.value, reply.value)
  {
    hide WooRuns.Kept, SentSound, ServerSound, WindowsSound;
  }

  lemma ReceiveTracks(w: World, run: Run, reply: Option<Ack>)
    requires WooProtocol.Sound(w) && Tracks(w, run) && Enabled(w, Receive(reply))
    ensures Tracks(Next(w, Receive(reply)), RunAfter(run, w, Receive(reply)))
  {
    hide WooProtocol.Sound, Settled, Acknowledges;
    RunMoves(run, Settle(reply));
    if Completes(reply, w.scan.value.pending.value) { CompletedIsStored(w, reply); }
  }

  lemma StepTracks(w: World, run: Run, step: WooProtocol.Step)
    requires WooProtocol.Sound(w) && Tracks(w, run)
    ensures Tracks(Next(w, step), RunAfter(run, w, step))
  {
    hide WooProtocol.Sound, Prepared, Settled, Paging.After;
    if Enabled(w, step) {
      match step {
        case Start(_, _, _, _) => StartTracks(w, run, step);
        case Send(extract, requestId, now) => RunMoves(run, Prepare(extract, requestId, now));
        case Receive(reply) => ReceiveTracks(w, run, reply);
        case Deliver(e, now) => ServerGrows(w.history.server, e, now);
        case Retry =>
      }
    }
  }

  lemma StartTracks(w: World, run: Run, step: WooProtocol.Step)
    requires Tracks(w, run) && step.Start? && Enabled(w, step)
    ensures Tracks(Next(w, step), RunAfter(run, w, step))
  {
  }

  /** The latest scan behaves as one by itself does, with the orders it read and the answers it got. */
  lemma {:induction false} AlwaysTracks(steps: seq<WooProtocol.Step>)
    ensures Tracks(WooProtocol.After(steps), RunOf(steps))
  {
    if steps != [] {
      hide WooProtocol.Sound, Tracks, Next, RunAfter;
      var init := steps[..|steps| - 1];
      AlwaysTracks(init);
      AlwaysSound(init);
      StepTracks(WooProtocol.After(init), RunOf(init), steps[|steps| - 1]);
    }
  }

  // ----- what has arrived -----

  /** The contents of computed pages. */
  function ContentsOf(pages: seq<WooRuns.Page>): seq<Content> {
    seq(|pages|, i requires 0 <= i < |pages| => pages[i].content)
  }

  /** Two lists of the pages 1 to n of one scan, both stored, are equal. */
  lemma StoredPagesAgree(s: Server, pages: seq<Content>, others: seq<Content>, scan: Uuid)
    requires AllStored(s, pages) && AllStored(s, others) && |pages| == |others|
    requires forall i :: 0 <= i < |pages| ==> pages[i].scan == scan && pages[i].page == i + 1
    requires forall i :: 0 <= i < |others| ==> others[i].scan == scan && others[i].page == i + 1
    ensures pages == others
  {
    forall i | 0 <= i < |pages| ensures pages[i] == others[i] {
      assert pages[i] in pages && others[i] in others && KeyOf(pages[i]) == KeyOf(others[i]);
    }
  }

  lemma AllAcknowledged(w: World, run: Run, reply: Option<Ack>, shop: Shop)
    requires WooProtocol.Sound(w) && Tracks(w, run) && Enabled(w, Receive(reply))
    requires ReadsShop(run.start, run.steps, shop)
    requires var e := w.scan.value.pending.value; Completes(reply, e) && e.content.finalPage
    ensures var s, all := w.scan.value, ProgressOf(run).acknowledged + [w.scan.value.pending.value.content];
      && WholeScan(all, s.scan, s.window) && |all| == s.page
      && (RecordsOf(all) == FactsOf(s.ids, shop) <==> !DropsAny(run.start, run.steps))
      && AllStored(w.history.server, all)
  {
    hide WooProtocol.Sound, Acknowledges, FactsOf, RecordsOf, Remaining, ReadsShop, DropsAny, Paging.After;
    AlwaysPaged(run.start, run.steps, shop);
    SettledKeeps(run.start, ProgressOf(run), reply, shop, DropsAny(run.start, run.steps));
    CompletedIsStored(w, reply);
  }

  lemma WholeScanPages(pages: seq<Content>, scan: Uuid, window: Interval)
    requires WholeScan(pages, scan, window)
    ensures forall i :: 0 <= i < |pages| ==> pages[i].scan == scan && pages[i].page == i + 1
  {
  }

  lemma LoggedAreStored(h: WooRuns.History, a: nat, b: nat)
    requires WooRuns.LogIsStored(h) && a <= b <= |h.log|
    ensures AllStored(h.server, ContentsOf(h.log[a..b]))
  {
    var pages := h.log[a..b];
    forall c | c in ContentsOf(pages) ensures KeyOf(c) in h.server.pages && h.server.pages[KeyOf(c)].content == c {
      var i :| 0 <= i < |pages| && c == pages[i].content;
      assert pages[i] == h.log[a + i];
    }
  }

  /** The final page was computed, and so were all pages of its scan just before it. */
  lemma PageIsLogged(steps: seq<WooProtocol.Step>, c: Content) returns (k: nat)
    requires var s := WooProtocol.After(steps).history.server;
      KeyOf(c) in s.pages && s.pages[KeyOf(c)].content == c && s.pages[KeyOf(c)].result.coverageAdvanced
    ensures var h := WooProtocol.After(steps).history;
      && k < |h.log| && h.log[k].content == c && h.log[k].advanced
      && WooRuns.EndsRun(h.log, k, c.scan, c.page) && WooRuns.LogIsStored(h)
  {
    hide WooProtocol.After, WooRuns.After, WooRuns.EndsRun;
    var h, ds := WooProtocol.After(steps).history, DeliveriesOf(steps);
    HistoryIsOfDeliveries(steps);
    WooRuns.PagesAreLog(ds);
    k :| 0 <= k < |h.log| && h.log[k].content == h.server.pages[KeyOf(c)].content;
    WooRuns.EveryPageEndsRun(ds, k);
  }

  /**
   When a scan is finished by an answer that coverage advanced, the server has computed its pages one after the other,
   and their records are the facts of the scan's orders, all of them, in order, each once, exactly when no order threw
   while its page had records.
   */
  lemma FinishedScanArrived(steps: seq<WooProtocol.Step>, reply: Option<Ack>, shop: Shop) returns (k: nat)
    requires ReadsShop(RunOf(steps).start, RunOf(steps).steps, shop)
    requires Enabled(WooProtocol.After(steps), Receive(reply))
    requires var e := WooProtocol.After(steps).scan.value.pending.value; Completes(reply, e) && e.content.finalPage
    ensures var w, run := WooProtocol.After(steps), RunOf(steps);
      var s, n, log := w.scan.value, w.scan.value.page, w.history.log;
      && run.start.scan == s.scan && run.start.ids == s.ids
      && WooRuns.EndsRun(log, k, s.scan, n) && log[k].advanced
      && (RecordsOf(ContentsOf(log[k + 1 - n..k + 1])) == FactsOf(s.ids, shop)
          <==> !DropsAny(run.start, run.steps))
  {
    hide WooProtocol.Sound, WholeScan, RecordsOf, FactsOf, ReadsShop, Tracks, Acknowledges, WooProtocol.After, RunOf,
      DropsAny;
    var w, run := WooProtocol.After(steps), RunOf(steps);
    var s, e := w.scan.value, w.scan.value.pending.value;
    var all := ProgressOf(run).acknowledged + [e.content];
    AlwaysTracks(steps);
    AlwaysSound(steps);
    AllAcknowledged(w, run, reply, shop);
    RunIsOfScan(w, run, shop);
    WholeScanPages(all, s.scan, s.window);
    CompletedIsStored(w, reply);
    assert all[s.page - 1] == e.content;
    k := PageIsLogged(steps, e.content);
    LoggedAreStored(w.history, k + 1 - s.page, k + 1);
    StoredPagesAgree(w.history.server, ContentsOf(w.history.log[k + 1 - s.page..k + 1]), all, s.scan);
  }

  lemma RunIsOfScan(w: World, run: Run, shop: Shop)
    requires Tracks(w, run) && w.scan.Some? && ReadsShop(run.start, run.steps, shop)
    ensures run.start.scan == w.scan.value.scan && run.start.ids == w.scan.value.ids
  {
    hide Paging.After, ReadsShop, DropsAny;
    AlwaysPaged(run.start, run.steps, shop);
  }

  // ----- what the projections reflect -----

  /** No record was rejected when the i-th computed page was read. */
  predicate Unrejected(log: seq<WooRuns.Page>, i: nat)
    requires i < |log|
  {
    !AnyRejected(ResultsOf(WooRuns.Read(log[..i]), log[i].content.records, log[i].at))
  }

  lemma NothingReflected(entries: Entries)
    ensures AllReflected(entries, RecordsOf(ContentsOf([])))
  {
  }

  lemma {:induction false} PagesReflected(log: seq<WooRuns.Page>, a: nat, b: nat)
    requires a <= b <= |log| && RevisionsRise(RecordsOf(ContentsOf(log[a..b])))
    requires forall i :: a <= i < b ==> Unrejected(log, i)
    ensures AllReflected(WooRuns.Read(log[..b]), RecordsOf(ContentsOf(log[a..b])))
  {
    hide AllReflected, RevisionsRise, AnyRejected, ResultsOf, WithRecords, RecordsOf, ContentsOf;
    if a == b {
      assert log[a..b] == [];
      NothingReflected(WooRuns.Read(log[..b]));
    } else {
      var page := log[b - 1];
      var records := RecordsOf(ContentsOf(log[a..b - 1]));
      assert log[..b][..b - 1] == log[..b - 1];
      assert log[a..b] == log[a..b - 1] + [page];
      RecordsJoin(log[a..b - 1], page);
      RiseBefore(records, page.content.records);
      PagesReflected(log, a, b - 1);
      assert Unrejected(log, b - 1);
      PageReflected(WooRuns.Read(log[..b - 1]), records, page.content.records, page.at);
    }
  }

  lemma RecordsJoin(pages: seq<WooRuns.Page>, page: WooRuns.Page)
    ensures RecordsOf(ContentsOf(pages + [page])) == RecordsOf(ContentsOf(pages)) + page.content.records
  {
    assert ContentsOf(pages + [page]) == ContentsOf(pages) + [page.content];
    RecordsAppend(ContentsOf(pages), page.content);
  }

  /**
   When the k-th computed page advances coverage, every record of its scan is reflected in the projections as they are
   then, if no object comes again with an older revision.
   */
  lemma FinishedScanReflected(steps: seq<WooProtocol.Step>, k: nat)
    requires var log := WooProtocol.After(steps).history.log; k < |log| && log[k].advanced
    ensures var log := WooProtocol.After(steps).history.log;
      && WooRuns.EndsRun(log, k, log[k].content.scan, log[k].content.page)
      && var records := RecordsOf(ContentsOf(log[k + 1 - log[k].content.page..k + 1]));
         RevisionsRise(records) ==> AllReflected(WooRuns.Read(log[..k + 1]), records)
  {
    hide WooProtocol.After, WooRuns.After, AnyRejected, ResultsOf, RevisionsRise, AllReflected, WooRuns.Read;
    var log, ds := WooProtocol.After(steps).history.log, DeliveriesOf(steps);
    HistoryIsOfDeliveries(steps);
    WooRuns.EveryPageEndsRun(ds, k);
    WooRuns.AdvancesOnlyAfterWholeScan(ds, k);
    var a := k + 1 - log[k].content.page;
    forall i | a <= i < k + 1 ensures Unrejected(log, i) {
      WooRuns.ResultsAreRead(ds, i);
      assert log[a..k + 1][i - a] == log[i];
    }
    if RevisionsRise(RecordsOf(ContentsOf(log[a..k + 1]))) { PagesReflected(log, a, k + 1); }
  }

  /**
   When a scan is finished and no order threw while its page had records, all facts of the scan's orders were reflected
   in the projections once its final page was read.
   */
  lemma FinishedScanIsProjected(steps: seq<WooProtocol.Step>, reply: Option<Ack>, shop: Shop) returns (k: nat)
    requires ReadsShop(RunOf(steps).start, RunOf(steps).steps, shop)
    requires Enabled(WooProtocol.After(steps), Receive(reply))
    requires var e := WooProtocol.After(steps).scan.value.pending.value; Completes(reply, e) && e.content.finalPage
    requires !DropsAny(RunOf(steps).start, RunOf(steps).steps)
    requires RevisionsRise(FactsOf(WooProtocol.After(steps).scan.value.ids, shop))
    ensures var w := WooProtocol.After(steps);
      && k < |w.history.log| && w.history.log[k].advanced && w.history.log[k].content.scan == w.scan.value.scan
      && AllReflected(WooRuns.Read(w.history.log[..k + 1]), FactsOf(w.scan.value.ids, shop))
  {
    hide WooProtocol.After, RunOf, ReadsShop, DropsAny, RevisionsRise, AllReflected, WooRuns.Read, FactsOf, RecordsOf,
      Acknowledges;
    k := FinishedScanArrived(steps, reply, shop);
    var log, n := WooProtocol.After(steps).history.log, WooProtocol.After(steps).scan.value.page;
    SavedPage(steps);
    assert log[k + 1 - n..k + 1][n - 1] == log[k];
    FinishedScanReflected(steps, k);
  }

  lemma SavedPage(steps: seq<WooProtocol.Step>)
    ensures var w := WooProtocol.After(steps); w.scan.Some? ==> w.scan.value.page >= 1
  {
    if steps != [] { SavedPage(steps[..|steps| - 1]); }
  }
}
