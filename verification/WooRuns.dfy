/** Properties of the shop connector over every sequence of requests, whatever is lost, repeated or reordered. */
module WooRuns {
  import opened Wrappers
  import opened Domain
  import opened Intervals
  import opened Projections
  import opened WooBatches
  import opened WooServer

  datatype Delivery = Delivery(envelope: Envelope, now: Time)

  /** A page as the server computed it: its content and time, its results and what was covered before. */
  datatype Page = Page(
    content: Content, at: Time, results: seq<RecordResult>, advanced: bool, before: Option<Interval>)

  datatype History = History(server: Server, log: seq<Page>)

  /** The request is answered by reading its records, not from a receipt or a stored page. */
  predicate Computes(s: Server, d: Delivery) {
    Answer(s, d.envelope, d.now).Ok? && d.envelope.requestId !in s.receipts && KeyOf(d.envelope.content) !in s.pages
  }

  function PageOf(s: Server, d: Delivery): Page
    requires Computes(s, d)
  {
    var ack := Answer(s, d.envelope, d.now).value;
    Page(d.envelope.content, d.now, ack.results, ack.coverageAdvanced, s.orders.coverage.covered)
  }

  function Extended(h: History, d: Delivery): History {
    History(Received(h.server, d.envelope, d.now),
      if Computes(h.server, d) then h.log + [PageOf(h.server, d)] else h.log)
  }

  function After(ds: seq<Delivery>): History {
    if ds == [] then History(NEW_SERVER, [])
    else Extended(After(ds[..|ds| - 1]), ds[|ds| - 1])
  }

  // ----- what the server keeps -----

  /** Pages 1 to n of one scan and window, in order; none but the last may be flagged final. */
  ghost predicate ScanPages(pages: seq<Page>, scan: Uuid, window: Interval) {
    forall i :: 0 <= i < |pages| ==>
      && pages[i].content.scan == scan && pages[i].content.page == i + 1 && pages[i].content.window == window
      && (pages[i].content.finalPage ==> i == |pages| - 1)
  }

  predicate AnyFailed(pages: seq<Page>) { exists p :: p in pages && AnyRejected(p.results) }

  /** The last n pages. */
  function Tail(log: seq<Page>, n: nat): seq<Page>
    requires n <= |log|
  {
    log[|log| - n..]
  }

  /** The pages of the scan the cursor is on are the latest ones computed, and none of them was final. */
  ghost predicate InProgress(o: Cursor, log: seq<Page>) {
    && o.scan.Some? && o.scanFrom.Some? && o.scanThrough.Some? && 2 <= o.nextPage <= |log| + 1
    && var pages := Tail(log, o.nextPage - 1);
       && ScanPages(pages, o.scan.value, Interval(o.scanFrom.value, o.scanThrough.value))
       && !pages[|pages| - 1].content.finalPage
       && (o.failed <==> AnyFailed(pages))
  }

  /** The latest page ends a run of pages 1 to n of its scan; it advanced coverage exactly when it should have. */
  ghost predicate LastInOrder(log: seq<Page>) {
    log != [] ==>
      var p := log[|log| - 1];
      && 1 <= p.content.page <= |log|
      && var pages := Tail(log, p.content.page);
         && ScanPages(pages, p.content.scan, p.content.window)
         && (p.advanced <==> p.content.finalPage && !AnyFailed(pages) && Contiguous(p.before, p.content.window))
  }

  /** The windows of the scans that advanced coverage, in order. */
  function Windows(log: seq<Page>): seq<Interval> {
    if log == [] then []
    else Windows(log[..|log| - 1]) + (if log[|log| - 1].advanced then [log[|log| - 1].content.window] else [])
  }

  /** An advance recorded for a page is within what is covered. */
  predicate Reached(s: Server, c: Content) {
    s.orders.coverage.covered.Some? && c.window.through <= s.orders.coverage.covered.value.through
  }

  ghost predicate PagesSound(s: Server) {
    forall key :: key in s.pages ==>
      KeyOf(s.pages[key].content) == key && (s.pages[key].result.coverageAdvanced ==> Reached(s, s.pages[key].content))
  }

  predicate SameOutcome(a: Ack, b: Ack) { a.results == b.results && a.coverageAdvanced == b.coverageAdvanced }

  /** A receipt repeats the answer of its page. */
  ghost predicate ReceiptsSound(s: Server) {
    forall id :: id in s.receipts ==>
      var r := s.receipts[id];
      && r.body.requestId == id && KeyOf(r.body.content) in s.pages
      && s.pages[KeyOf(r.body.content)].content == r.body.content
      && SameOutcome(s.pages[KeyOf(r.body.content)].result, r.result)
      && r.result.requestId == id
  }

  ghost predicate LogStored(h: History) {
    && (forall i :: 0 <= i < |h.log| ==> KeyOf(h.log[i].content) in h.server.pages)
    && (forall i, j :: 0 <= i < j < |h.log| ==> KeyOf(h.log[i].content) != KeyOf(h.log[j].content))
  }

  ghost predicate Kept(h: History) {
    var s := h.server;
    && s.orders.coverage == s.refunds
    && (s.orders.scan.Some? ==> !s.orders.coverage.complete && InProgress(s.orders, h.log))
    && s.orders.coverage.covered == HullOf(Windows(h.log))
    && PagesSound(s) && ReceiptsSound(s) && LogStored(h)
  }

  lemma AnyFailedAppend(pages: seq<Page>, p: Page)
    ensures AnyFailed(pages + [p]) <==> AnyFailed(pages) || AnyRejected(p.results)
  {
    if AnyFailed(pages) {
      var q :| q in pages && AnyRejected(q.results);
      assert q in pages + [p];
    }
    assert p in pages + [p];
  }

  lemma CoverageExtends(h: History, d: Delivery)
    requires Kept(h) && Computes(h.server, d)
    ensures var s, t, p := h.server, Extended(h, d).server, PageOf(h.server, d);
      && t.orders.coverage == t.refunds
      && t.orders.coverage.covered == HullOf(Windows(h.log + [p]))
      && (p.advanced ==> Reached(t, p.content))
      && (forall c: Content :: Reached(s, c) ==> Reached(t, c))
      && (t.orders.scan.Some? ==> !t.orders.coverage.complete)
  {
    hide InProgress, PagesSound, ReceiptsSound, LogStored, WithRecords, ResultsOf, AnyRejected;
    var p := PageOf(h.server, d);
    assert (h.log + [p])[..|h.log|] == h.log;
    var ws := Windows(h.log);
    assert (ws + [p.content.window])[..|ws|] == ws;
    assert ws + [] == ws;
  }

  /** What computing a page does to the sequence fields of the cursor. */
  lemma CursorSteps(s: Server, d: Delivery)
    requires Computes(s, d)
    ensures var c, o, t, p := d.envelope.content, Entered(s.orders, d.envelope.content),
              Received(s, d.envelope, d.now).orders, PageOf(s, d);
      && p.content == c && p.before == s.orders.coverage.covered && Expects(o, c) && o.scan == Some(c.scan)
      && (s.orders.scan == Some(c.scan) || c.page == 1)
      && t.failed == (o.failed || AnyRejected(p.results))
      && p.advanced == (c.finalPage && !t.failed && Contiguous(p.before, c.window))
      && t.nextPage == c.page + 1 && t.scanFrom == o.scanFrom
      && t.scan == (if c.finalPage then None else o.scan)
      && t.scanThrough == (if c.finalPage then None else o.scanThrough)
  {
    hide WithRecords, ResultsOf, AnyRejected, Hull, AcceptableWindow, Busy;
  }

  lemma ScanPagesExtend(pages: seq<Page>, p: Page, scan: Uuid, window: Interval)
    requires ScanPages(pages, scan, window) && (pages != [] ==> !pages[|pages| - 1].content.finalPage)
    requires p.content.scan == scan && p.content.page == |pages| + 1 && p.content.window == window
    ensures ScanPages(pages + [p], scan, window)
  {
  }

  lemma TailExtends(log: seq<Page>, p: Page, n: nat)
    requires n <= |log|
    ensures Tail(log + [p], n + 1) == Tail(log, n) + [p]
  {
  }

  /** The pages of the scan that a page belongs to, up to and with it. */
  lemma RunExtends(o: Cursor, log: seq<Page>, p: Page)
    requires o.scan == Some(p.content.scan) ==> InProgress(o, log) && Expects(o, p.content)
    requires o.scan != Some(p.content.scan) ==> p.content.page == 1
    ensures 1 <= p.content.page <= |log| + 1
    ensures var pages := Tail(log + [p], p.content.page);
      && ScanPages(pages, p.content.scan, p.content.window) && pages != [] && pages[|pages| - 1] == p
      && (AnyFailed(pages) <==> (o.scan == Some(p.content.scan) && o.failed) || AnyRejected(p.results))
  {
    hide AnyFailed, AnyRejected, ScanPages;
    var c := p.content;
    var n := c.page - 1;
    EmptyRun(c.scan, c.window);
    TailExtends(log, p, n);
    AnyFailedAppend(Tail(log, n), p);
    ScanPagesExtend(Tail(log, n), p, c.scan, c.window);
  }

  lemma SequenceExtends(h: History, d: Delivery)
    requires Kept(h) && Computes(h.server, d)
    ensures var t, log := Extended(h, d).server, h.log + [PageOf(h.server, d)];
      LastInOrder(log) && (t.orders.scan.Some? ==> InProgress(t.orders, log))
  {
    hide PagesSound, ReceiptsSound, LogStored, AnyFailed, AnyRejected, ScanPages, HullOf, Windows, Hull, Received,
      PageOf, Computes, Contiguous, Tail;
    CursorSteps(h.server, d);
    RunExtends(h.server.orders, h.log, PageOf(h.server, d));
  }

  lemma EmptyRun(scan: Uuid, window: Interval)
    ensures ScanPages([], scan, window) && !AnyFailed([])
  {
  }

  lemma StoreExtends(h: History, d: Delivery)
    requires Kept(h) && Computes(h.server, d)
    requires forall c: Content :: Reached(h.server, c) ==> Reached(Extended(h, d).server, c)
    requires PageOf(h.server, d).advanced ==> Reached(Extended(h, d).server, d.envelope.content)
    ensures PagesSound(Extended(h, d).server) && ReceiptsSound(Extended(h, d).server) && LogStored(Extended(h, d))
  {
    hide InProgress, HullOf, Windows, Hull, Reached, WithRecords, ResultsOf, AnyRejected, Advances, CoverageAfter,
      Entered;
  }

  lemma ReplayExtends(h: History, d: Delivery)
    requires Kept(h) && !Computes(h.server, d)
    ensures Kept(Extended(h, d))
  {
    hide InProgress, HullOf, Windows, Hull, WithRecords, ResultsOf, AnyRejected, Advances, CoverageAfter, Entered;
  }

  lemma ExtendedKept(h: History, d: Delivery)
    requires Kept(h)
    ensures Kept(Extended(h, d))
    ensures Computes(h.server, d) ==> LastInOrder(Extended(h, d).log)
  {
    if Computes(h.server, d) {
      hide InProgress, PagesSound, ReceiptsSound, LogStored, HullOf, Windows, Received, Reached, PageOf, LastInOrder;
      CoverageExtends(h, d);
      SequenceExtends(h, d);
      StoreExtends(h, d);
    } else {
      ReplayExtends(h, d);
    }
  }

  lemma {:induction false} AlwaysKept(ds: seq<Delivery>)
    ensures Kept(After(ds))
  {
    if ds != [] {
      AlwaysKept(ds[..|ds| - 1]);
      ExtendedKept(After(ds[..|ds| - 1]), ds[|ds| - 1]);
    }
  }

  // ----- every run -----

  lemma {:induction false} LogInOrder(ds: seq<Delivery>, k: nat)
    requires k < |After(ds).log|
    ensures LastInOrder(After(ds).log[..k + 1])
  {
    hide LastInOrder, Computes, PageOf, Received, Kept;
    var h := After(ds[..|ds| - 1]);
    AlwaysKept(ds[..|ds| - 1]);
    ExtendedKept(h, ds[|ds| - 1]);
    if k < |h.log| {
      LogInOrder(ds[..|ds| - 1], k);
      assert After(ds).log[..k + 1] == h.log[..k + 1];
    } else {
      assert After(ds).log[..k + 1] == After(ds).log;
    }
  }

  /**
   A page newly reports that coverage advanced exactly when it is final, no record of pages 1 to n of its scan was
   rejected, and its window starts within what was covered. Those pages are the last ones computed, in order, all
   with its window and only the last of them final.
   */
  lemma AdvancesOnlyAfterWholeScan(ds: seq<Delivery>, k: nat)
    requires k < |After(ds).log|
    ensures var log, p := After(ds).log, After(ds).log[k];
      && 1 <= p.content.page <= k + 1
      && var pages := log[k + 1 - p.content.page..k + 1];
         && (forall i :: 0 <= i < |pages| ==>
               && pages[i].content.scan == p.content.scan && pages[i].content.page == i + 1
               && pages[i].content.window == p.content.window
               && (i < |pages| - 1 ==> !pages[i].content.finalPage))
         && (p.advanced <==>
               && p.content.finalPage && Contiguous(p.before, p.content.window)
               && forall i :: 0 <= i < |pages| ==> !AnyRejected(pages[i].results))
  {
    hide AnyRejected, Contiguous;
    LogInOrder(ds, k);
    var log, p := After(ds).log, After(ds).log[k];
    assert log[..k + 1][|log[..k + 1]| - 1] == p;
    assert Tail(log[..k + 1], p.content.page) == log[k + 1 - p.content.page..k + 1];
  }

  /** Pages 1 to n of a scan, up to and with the k-th computed page. */
  ghost predicate EndsRun(log: seq<Page>, k: nat, scan: Uuid, n: nat) {
    && n <= k + 1 <= |log|
    && var pages := log[k + 1 - n..k + 1];
       forall i :: 0 <= i < n ==> pages[i].content.scan == scan && pages[i].content.page == i + 1
  }

  lemma EveryPageEndsRun(ds: seq<Delivery>, k: nat)
    requires k < |After(ds).log|
    ensures EndsRun(After(ds).log, k, After(ds).log[k].content.scan, After(ds).log[k].content.page)
  {
    hide After, AnyRejected, Contiguous;
    AdvancesOnlyAfterWholeScan(ds, k);
  }

  /** No page's records are ever read twice, whatever request ids carry it. */
  lemma EachPageComputedOnce(ds: seq<Delivery>)
    ensures var log := After(ds).log;
      forall i, j :: 0 <= i < j < |log| ==>
        !(log[i].content.scan == log[j].content.scan && log[i].content.page == log[j].content.page)
  {
    AlwaysKept(ds);
    var log := After(ds).log;
    forall i, j | 0 <= i < j < |log|
      ensures !(log[i].content.scan == log[j].content.scan && log[i].content.page == log[j].content.page)
    {
      assert KeyOf(log[i].content) != KeyOf(log[j].content);
    }
  }

  /** The two cursors agree, and while a scan is in progress neither claims to be complete. */
  lemma CursorsAgree(ds: seq<Delivery>)
    ensures var s := After(ds).server;
      && s.orders.coverage == s.refunds
      && (s.refunds.complete ==> s.orders.scan.None? && s.refunds.covered.Some?)
  {
    AlwaysKept(ds);
    CompleteIsCovered(ds);
  }

  lemma {:induction false} CompleteIsCovered(ds: seq<Delivery>)
    ensures var c := After(ds).server.orders.coverage; c.complete ==> c.covered.Some?
  {
    hide Hull, WithRecords, ResultsOf, AnyRejected, AcceptableWindow, Busy;
    if ds != [] { CompleteIsCovered(ds[..|ds| - 1]); }
  }

  /** In each state of the run the covered interval is the union of the windows that advanced it. */
  ghost predicate AlwaysUnion(ds: seq<Delivery>) {
    forall k :: 0 <= k <= |ds| ==> IsUnion(After(ds[..k]).server.refunds.covered, Windows(After(ds[..k]).log))
  }

  /** Each page that advanced coverage reached back to what was covered before it. */
  ghost predicate AllReachBack(log: seq<Page>) {
    forall k :: 0 <= k < |log| && log[k].advanced ==> ReachesBack(log[k].before, log[k].content.window)
  }

  lemma ComputedWindow(s: Server, d: Delivery)
    requires Computes(s, d)
    ensures d.envelope.content.window.from <= d.envelope.content.window.through
  {
    hide Computed;
  }

  /** One more page keeps the union exactly when it does not advance, or reaches back. */
  lemma UnionStepIff(h: History, d: Delivery)
    requires Kept(h) && Computes(h.server, d) && IsUnion(h.server.refunds.covered, Windows(h.log))
    ensures var g, p := Extended(h, d), PageOf(h.server, d);
      IsUnion(g.server.refunds.covered, Windows(g.log)) <==> (p.advanced ==> ReachesBack(p.before, p.content.window))
  {
    hide Hull, IsUnion, ReachesBack, InProgress, PagesSound, ReceiptsSound, LogStored, PageOf, Received, Computes,
      Reached;
    var p := PageOf(h.server, d);
    CursorSteps(h.server, d);
    ComputedWindow(h.server, d);
    CoverageExtends(h, d);
    assert (h.log + [p])[..|h.log|] == h.log;
    var ws := Windows(h.log);
    assert (ws + [p.content.window])[..|ws|] == ws && ws + [] == ws;
    if p.advanced { ExtensionIsUnionIff(h.server.refunds.covered, ws, p.content.window); }
  }

  /**
   In every state of a run an instant is covered if and only if some whole scan looked at it, exactly when each page
   that advanced coverage ended no earlier than the tick in front of what was covered.
   */
  lemma {:induction false} CoverageIsUnionIff(ds: seq<Delivery>)
    ensures AlwaysUnion(ds) <==> AllReachBack(After(ds).log)
  {
    if ds == [] {
      assert ds[..0] == ds;
    } else {
      hide IsUnion, ReachesBack, Computes, PageOf, Received, Kept, Windows;
      var init, d := ds[..|ds| - 1], ds[|ds| - 1];
      var h := After(init);
      CoverageIsUnionIff(init);
      AlwaysKept(init);
      assert ds[..|ds|] == ds;
      assert forall k :: 0 <= k <= |init| ==> init[..k] == ds[..k];
      assert init[..|init|] == init;
      AlwaysUnionStep(ds);
      if Computes(h.server, d) {
        var p := PageOf(h.server, d);
        assert After(ds).log == h.log + [p];
        if AlwaysUnion(init) { UnionStepIff(h, d); }
        assert AllReachBack(h.log + [p]) <==>
            AllReachBack(h.log) && (p.advanced ==> ReachesBack(p.before, p.content.window)) by {
          ReachBackAppend(h.log, p);
        }
      } else {
        ReplayCovers(h, d);
      }
    }
  }

  lemma AlwaysUnionStep(ds: seq<Delivery>)
    requires ds != []
    ensures AlwaysUnion(ds) <==>
              AlwaysUnion(ds[..|ds| - 1]) && IsUnion(After(ds).server.refunds.covered, Windows(After(ds).log))
    ensures AlwaysUnion(ds[..|ds| - 1]) ==>
              var h := After(ds[..|ds| - 1]); IsUnion(h.server.refunds.covered, Windows(h.log))
  {
    hide IsUnion, After, Windows;
    var init := ds[..|ds| - 1];
    assert init[..|init|] == init && ds[..|ds|] == ds;
    assert forall k :: 0 <= k <= |init| ==> init[..k] == ds[..k];
  }

  lemma ReachBackAppend(log: seq<Page>, p: Page)
    ensures AllReachBack(log + [p]) <==>
              AllReachBack(log) && (p.advanced ==> ReachesBack(p.before, p.content.window))
  {
    hide ReachesBack;
    var all := log + [p];
    assert all[|log|] == p;
    assert forall k :: 0 <= k < |log| ==> all[k] == log[k];
  }

  lemma ReplayCovers(h: History, d: Delivery)
    requires !Computes(h.server, d)
    ensures Extended(h, d).server.refunds == h.server.refunds && Extended(h, d).log == h.log
  {
  }

  /** Otherwise the covered interval can hold instants that no scan looked at. */
  lemma EarlierWindowLeavesGap()
    ensures exists ds: seq<Delivery>, t: Time ::
              var h := After(ds);
              h.server.refunds.covered.Some? && Within(t, h.server.refunds.covered.value) && !InAny(t, Windows(h.log))
  {
    hide Hull, HullOf, Windows, InAny;
    var now := 40 * DAY;
    var recent := Delivery(Envelope(1, now, Content(1, 1, Interval(now - 10, now), true, [])), now);
    var earlier := Delivery(Envelope(2, now, Content(2, 1, Interval(now - 30, now - 20), true, [])), now);
    SingleDelivery(recent);
    var h := Extended(History(NEW_SERVER, []), recent);
    AppendDelivery([recent], earlier);
    var g := Extended(h, earlier);
    TwoAdvances(h.log[0], g.log[1]);
    assert g.log == [h.log[0], g.log[1]];
    NotInTwo(now - 15, Interval(now - 10, now), Interval(now - 30, now - 20));
    AlwaysKept([recent] + [earlier]);
    TwoHulls(Interval(now - 10, now), Interval(now - 30, now - 20));
    assert Within(now - 15, After([recent] + [earlier]).server.refunds.covered.value);
  }

  lemma SingleDelivery(d: Delivery)
    ensures After([d]) == Extended(History(NEW_SERVER, []), d)
  {
    assert [d][..0] == [];
  }

  lemma AppendDelivery(ds: seq<Delivery>, d: Delivery)
    ensures After(ds + [d]) == Extended(After(ds), d)
  {
    assert (ds + [d])[..|ds|] == ds;
  }

  lemma TwoAdvances(p: Page, q: Page)
    requires p.advanced && q.advanced
    ensures Windows([p, q]) == [p.content.window, q.content.window]
  {
    assert [p, q][..1] == [p] && [p][..0] == [];
    assert Windows([p]) == [] + [p.content.window];
  }

  lemma NotInTwo(t: Time, a: Interval, b: Interval)
    requires !Within(t, a) && !Within(t, b)
    ensures !InAny(t, [a, b])
  {
  }

  lemma TwoHulls(a: Interval, b: Interval)
    ensures HullOf([a, b]) == Some(Hull(Some(a), b))
  {
    assert [a, b][..1] == [a] && [a][..0] == [];
    assert HullOf([a]) == Some(a);
  }

  /** What a computed page does to the covered interval. */
  lemma CoveredAfter(s: Server, d: Delivery)
    ensures var covered := Received(s, d.envelope, d.now).orders.coverage.covered;
      covered == if Computes(s, d) && PageOf(s, d).advanced
        then Some(Hull(s.orders.coverage.covered, d.envelope.content.window)) else s.orders.coverage.covered
    ensures Computes(s, d) ==> AcceptableWindow(d.envelope.content.window, d.now)
    ensures Computes(s, d) ==>
              PageOf(s, d).content == d.envelope.content && PageOf(s, d).before == s.orders.coverage.covered
  {
    hide WithRecords, ResultsOf, AnyRejected, Busy, Hull;
  }

  /** A request that arrives more than 36 days after what is covered cannot extend it. */
  lemma LateRequest(s: Server, d: Delivery)
    requires s.orders.coverage.covered.Some? && s.orders.coverage.covered.value.through < d.now - 36 * DAY
    ensures Received(s, d.envelope, d.now).orders.coverage.covered == s.orders.coverage.covered
  {
    CoveredAfter(s, d);
    if Computes(s, d) { CursorSteps(s, d); }
  }

  // ----- what the pages did to the projections -----

  /** The projections after reading each page of a log once, in order. */
  function Read(log: seq<Page>): Entries {
    if log == [] then map[]
    else WithRecords(Read(log[..|log| - 1]), log[|log| - 1].content.records, log[|log| - 1].at)
  }

  /** The projections are those of the computed pages: requests that are lost, refused or repeated add nothing. */
  lemma {:induction false} ProjectionsAreOfPages(ds: seq<Delivery>)
    ensures After(ds).server.entries == Read(After(ds).log)
  {
    if ds != [] {
      hide WithRecords, ResultsOf, CoverageAfter, Entered, InSequence, AcceptableWindow;
      var init, d := ds[..|ds| - 1], ds[|ds| - 1];
      var h := After(init);
      ProjectionsAreOfPages(init);
      if Computes(h.server, d) {
        assert (h.log + [PageOf(h.server, d)])[..|h.log|] == h.log;
      }
    }
  }

  /** The results of a page are those of reading it after the pages before it. */
  lemma {:induction false} ResultsAreRead(ds: seq<Delivery>, k: nat)
    requires k < |After(ds).log|
    ensures var log := After(ds).log; log[k].results == ResultsOf(Read(log[..k]), log[k].content.records, log[k].at)
  {
    hide WithRecords, ResultsOf, CoverageAfter, Entered, InSequence, AcceptableWindow, Read;
    var init := ds[..|ds| - 1];
    var h := After(init);
    if k < |h.log| {
      ResultsAreRead(init, k);
      assert After(ds).log[..k] == h.log[..k];
    } else {
      ProjectionsAreOfPages(init);
      assert After(ds).log[..k] == h.log;
    }
  }

  /** Each computed page is stored as it was computed. */
  ghost predicate LogIsStored(h: History) {
    forall i :: 0 <= i < |h.log| ==>
      var key := KeyOf(h.log[i].content);
      && key in h.server.pages && h.server.pages[key].content == h.log[i].content
      && h.server.pages[key].result.coverageAdvanced == h.log[i].advanced
  }

  /** Each stored page was computed. */
  ghost predicate StoreIsLogged(h: History) {
    forall key :: key in h.server.pages ==>
      exists i :: 0 <= i < |h.log| && h.log[i].content == h.server.pages[key].content
  }

  lemma StoreExtended(h: History, d: Delivery)
    requires LogIsStored(h) && StoreIsLogged(h)
    ensures LogIsStored(Extended(h, d)) && StoreIsLogged(Extended(h, d))
  {
    hide WithRecords, ResultsOf, CoverageAfter, Entered, InSequence, AcceptableWindow, Advances;
    var g := Extended(h, d);
    forall key | key in g.server.pages
      ensures exists i :: 0 <= i < |g.log| && g.log[i].content == g.server.pages[key].content
    {
      if key in h.server.pages {
        var i :| 0 <= i < |h.log| && h.log[i].content == h.server.pages[key].content;
        assert g.log[i] == h.log[i];
      } else {
        assert g.log[|h.log|].content == g.server.pages[key].content;
      }
    }
  }

  lemma {:induction false} PagesAreLog(ds: seq<Delivery>)
    ensures LogIsStored(After(ds)) && StoreIsLogged(After(ds))
  {
    if ds != [] {
      PagesAreLog(ds[..|ds| - 1]);
      StoreExtended(After(ds[..|ds| - 1]), ds[|ds| - 1]);
    }
  }

  // ----- conflicting records -----

  lemma {:induction false} ResultAt(entries: Entries, records: seq<Record>, now: Time, i: nat)
    requires i < |records|
    ensures ResultsOf(entries, records, now)[i].status
         == StatusOf(WithRecords(entries, records[..i], now), records[i], now)
  {
    var init := records[..|records| - 1];
    if i < |init| {
      ResultAt(entries, init, now, i);
      assert init[..i] == records[..i];
    }
  }

  lemma RejectedPageIncomplete(h: History, d: Delivery)
    requires Kept(h) && Computes(h.server, d) && AnyRejected(PageOf(h.server, d).results)
    ensures !Extended(h, d).server.orders.coverage.complete
  {
    hide WithRecords, ResultsOf, AnyRejected, Hull, HullOf, InProgress, PagesSound, ReceiptsSound, LogStored,
      AcceptableWindow;
  }

  lemma CompleteOnlyByAdvance(h: History, d: Delivery)
    requires !h.server.orders.coverage.complete && Extended(h, d).server.orders.coverage.complete
    ensures Computes(h.server, d) && PageOf(h.server, d).advanced
  {
    hide WithRecords, ResultsOf, AnyRejected, Hull, AcceptableWindow, InSequence;
  }

  lemma {:induction false} IncompleteUntilAdvance(ds: seq<Delivery>, more: seq<Delivery>)
    requires !After(ds).server.orders.coverage.complete && After(ds + more).server.orders.coverage.complete
    ensures exists k :: |After(ds).log| <= k < |After(ds + more).log| && After(ds + more).log[k].advanced
  {
    hide Computes, PageOf, Received;
    assert ds + [] == ds;
    if more != [] {
      var init, d := more[..|more| - 1], more[|more| - 1];
      assert ds + more == (ds + init) + [d];
      AppendDelivery(ds + init, d);
      var h := After(ds + init);
      LogGrows(ds, init);
      if h.server.orders.coverage.complete {
        IncompleteUntilAdvance(ds, init);
        var k :| |After(ds).log| <= k < |h.log| && h.log[k].advanced;
        assert After(ds + more).log[k] == h.log[k];
      } else {
        CompleteOnlyByAdvance(h, d);
        assert After(ds + more).log[|h.log|] == PageOf(h.server, d);
      }
    }
  }

  lemma {:induction false} LogGrows(ds: seq<Delivery>, more: seq<Delivery>)
    ensures After(ds).log <= After(ds + more).log
  {
    hide Computes, PageOf, Received;
    if more == [] {
      assert ds + more == ds;
    } else {
      assert ds + more == (ds + more[..|more| - 1]) + [more[|more| - 1]];
      AppendDelivery(ds + more[..|more| - 1], more[|more| - 1]);
      LogGrows(ds, more[..|more| - 1]);
    }
  }

  /** The i-th record of a page conflicts with what is projected when its turn comes. */
  predicate ConflictsAt(entries: Entries, records: seq<Record>, i: nat, now: Time)
    requires i < |records|
  {
    var r := records[i];
    && Usable(r, now)
    && Conflicts(EntryOf(WithRecords(entries, records[..i], now), ProjectionKey(r)),
         Observation(r.revision.value, r.data.value))
  }

  /** A conflicting record is rejected, and neither cursor is complete again until a later scan advances coverage. */
  lemma ConflictInvalidatesCoverage(ds: seq<Delivery>, d: Delivery, i: nat, more: seq<Delivery>)
    requires Computes(After(ds).server, d) && i < |d.envelope.content.records|
    requires ConflictsAt(After(ds).server.entries, d.envelope.content.records, i, d.now)
    ensures PageOf(After(ds).server, d).results[i].status == Rejected
    ensures var g, t := After(ds + [d]), After(ds + [d] + more);
      t.server.orders.coverage.complete || t.server.refunds.complete ==>
        exists k :: |g.log| <= k < |t.log| && t.log[k].advanced
  {
    hide Kept, AnyRejected, WithRecords, PageOf, Received, Computes;
    ConflictIsRejected(After(ds).server, d, i);
    AlwaysKept(ds);
    RejectedPageIncomplete(After(ds), d);
    AppendDelivery(ds, d);
    CursorsAgree(ds + [d] + more);
    if After(ds + [d] + more).server.orders.coverage.complete { IncompleteUntilAdvance(ds + [d], more); }
  }

  lemma ConflictIsRejected(s: Server, d: Delivery, i: nat)
    requires Computes(s, d) && i < |d.envelope.content.records|
    requires ConflictsAt(s.entries, d.envelope.content.records, i, d.now)
    ensures var results := PageOf(s, d).results;
      i < |results| && results[i].status == Rejected && AnyRejected(results)
  {
    hide Conflicts, Overwrites, CoverageAfter, Entered, InSequence, AcceptableWindow;
    var c := d.envelope.content;
    ResultAt(s.entries, c.records, d.now, i);
    assert PageOf(s, d).results == ResultsOf(s.entries, c.records, d.now);
    assert PageOf(s, d).results[i] in PageOf(s, d).results;
  }

  // ----- lost answers -----

  lemma {:induction false} PageStays(ds: seq<Delivery>, later: seq<Delivery>, key: PageKey)
    requires key in After(ds).server.pages
    ensures var s := After(ds + later).server; key in s.pages && s.pages[key] == After(ds).server.pages[key]
  {
    if later == [] {
      assert ds + later == ds;
    } else {
      hide WithRecords, ResultsOf, CoverageAfter, Entered, InSequence, AcceptableWindow, PageOf;
      var init := later[..|later| - 1];
      PageStays(ds, init, key);
      assert ds + later == (ds + init) + [later[|later| - 1]];
      AppendDelivery(ds + init, later[|later| - 1]);
    }
  }

  /**
   A page that was answered once is answered the same way ever after, under any new request id, unless the minute's
   quota is used up. Reading it again changes nothing but the receipts and the count of requests: a client that lost the
   answer can safely sign the page again and resend it.
   */
  lemma LostAnswerIsRepeated(ds: seq<Delivery>, d: Delivery, later: seq<Delivery>, again: Delivery)
    requires Answer(After(ds).server, d.envelope, d.now).Ok? && again.envelope.content == d.envelope.content
    requires again.envelope.requestId !in After(ds + [d] + later).server.receipts
    requires -SIGNATURE_SKEW <= again.now - again.envelope.sentAt <= SIGNATURE_SKEW
    ensures var s := After(ds + [d] + later).server;
      var answer := Answer(s, again.envelope, again.now);
      && (if Limited(s, again.now) then answer == Err(RateLimited)
          else (answer.Ok? && answer.value.requestId == again.envelope.requestId
                && SameOutcome(answer.value, Answer(After(ds).server, d.envelope, d.now).value)))
      && Received(s, again.envelope, again.now).(receipts := s.receipts, counts := s.counts) == s
  {
    var key := KeyOf(d.envelope.content);
    AppendDelivery(ds, d);
    AlwaysKept(ds);
    AnswerIsStored(After(ds), d);
    PageStays(ds + [d], later, key);
  }

  lemma AnswerIsStored(h: History, d: Delivery)
    requires Kept(h) && Answer(h.server, d.envelope, d.now).Ok?
    ensures var t, key := Extended(h, d).server, KeyOf(d.envelope.content);
      && key in t.pages && t.pages[key].content == d.envelope.content
      && SameOutcome(t.pages[key].result, Answer(h.server, d.envelope, d.now).value)
  {
    hide InProgress, HullOf, Windows, WithRecords, ResultsOf, CoverageAfter, InSequence, AcceptableWindow, LogStored,
      PagesSound;
  }
}
