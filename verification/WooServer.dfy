/**
 The server half of the shop scan: receipts answer a repeated request, stored pages answer a repeated page, a cursor
 enforces the page sequence of one scan at a time, and a completed scan extends the coverage of orders and refunds.
 Requests arrive for one connector and are handled one at a time, under its lock.
 */
module WooServer {
  import opened Wrappers
  import opened Intervals
  import opened Projections
  import opened Domain
  import opened WooBatches

  datatype Problem =
    | SignatureExpired
    | RequestIdConflict
    | RateLimited
    | ScanPageContentConflict
    | InvalidCoverageWindow
    | ScanSequenceConflict

  /** The orders cursor. A row that does not exist yet is `NO_SCAN` or `NO_COVERAGE`. */
  datatype Cursor = Cursor(
    coverage: CoverageRow, scan: Option<Uuid>, scanFrom: Option<Time>, scanThrough: Option<Time>, nextPage: nat,
    failed: bool, updatedAt: Time)

  /** The columns of the orders cursor that follow a scan. */
  datatype Position = Position(
    scan: Option<Uuid>, scanFrom: Option<Time>, scanThrough: Option<Time>, nextPage: nat, failed: bool, updatedAt: Time)

  const ORDERS := "woo_orders"
  const REFUNDS := "woo_refunds"
  const NO_SCAN := Cursor(NO_COVERAGE, None, None, None, 1, false, 0)

  datatype PageKey = PageKey(scan: Uuid, page: nat)
  datatype BatchPage = BatchPage(content: Content, result: Ack)
  datatype Receipt = Receipt(body: Envelope, result: Ack)

  datatype Server = Server(
    orders: Cursor, refunds: CoverageRow, pages: map<PageKey, BatchPage>, receipts: map<Uuid, Receipt>,
    entries: Entries, counts: map<int, nat>)

  const NEW_SERVER := Server(NO_SCAN, NO_COVERAGE, map[], map[], map[], map[])
  const QUOTA := 240

  const FUTURE_SKEW := 2 * MINUTE
  const SIGNATURE_SKEW := 5 * MINUTE

  function KeyOf(c: Content): PageKey { PageKey(c.scan, c.page) }

  // ----- the records of a page -----

  function ProjectionKey(r: Record): Key { Key(if r.kind == "order" then "order" else "woo_refund", r.sourceId) }

  /** The record has a time and amounts that parse, and is not from the future. */
  predicate Usable(r: Record, now: Time) {
    r.revision.Some? && r.data.Some? && r.revision.value <= now + FUTURE_SKEW
  }

  function StatusOf(entries: Entries, r: Record, now: Time): Status {
    if !Usable(r, now) then Rejected
    else
      var e, o := EntryOf(entries, ProjectionKey(r)), Observation(r.revision.value, r.data.value);
      if Conflicts(e, o) then Rejected else if Overwrites(e, o) then StatusAccepted else StatusDuplicate
  }

  function WithRecord(entries: Entries, r: Record, now: Time): Entries {
    if !Usable(r, now) then entries
    else StoredIn(entries, ProjectionKey(r), Observation(r.revision.value, r.data.value))
  }

  function WithRecords(entries: Entries, records: seq<Record>, now: Time): Entries {
    if records == [] then entries
    else WithRecord(WithRecords(entries, records[..|records| - 1], now), records[|records| - 1], now)
  }

  function ResultsOf(entries: Entries, records: seq<Record>, now: Time): (results: seq<RecordResult>)
    ensures |results| == |records|
    ensures forall i :: 0 <= i < |records| ==>
              results[i].sourceId == records[i].sourceId && results[i].kind == records[i].kind
  {
    if records == [] then []
    else
      var init, r := records[..|records| - 1], records[|records| - 1];
      ResultsOf(entries, init, now)
      + [RecordResult(r.sourceId, r.kind, StatusOf(WithRecords(entries, init, now), r, now))]
  }

  predicate AnyRejected(results: seq<RecordResult>) { exists r :: r in results && r.status == Rejected }

  // ----- the quota of requests -----

  /** The requests counted in the minute of this time. */
  function CountAt(counts: map<int, nat>, now: Time): nat {
    if now / MINUTE in counts then counts[now / MINUTE] else 0
  }

  predicate Limited(s: Server, now: Time) { CountAt(s.counts, now) >= QUOTA }

  function Counted(counts: map<int, nat>, now: Time): map<int, nat> {
    counts[now / MINUTE := CountAt(counts, now) + 1]
  }

  // ----- one request -----

  predicate AcceptableWindow(window: Interval, now: Time) {
    now - 36 * DAY <= window.from <= window.through <= now + FUTURE_SKEW
  }

  /** Another scan may not take over from this one yet. */
  predicate Busy(o: Cursor, now: Time) {
    o.scan.Some? && !o.failed && o.scanThrough.Some? && o.updatedAt > now - 30 * MINUTE
  }

  predicate Expects(o: Cursor, c: Content) {
    o.nextPage == c.page && o.scanFrom == Some(c.window.from) && o.scanThrough == Some(c.window.through)
  }

  predicate InSequence(o: Cursor, c: Content, now: Time) {
    if o.scan == Some(c.scan) then Expects(o, c) else c.page == 1 && !Busy(o, now)
  }

  /** The cursor as the page's records are read: switched to the page's scan if it was on another. */
  function Entered(o: Cursor, c: Content): Cursor {
    if o.scan == Some(c.scan) then o
    else
      o.(scan := Some(c.scan), scanFrom := Some(c.window.from), scanThrough := Some(c.window.through), nextPage := 1,
        failed := false, coverage := o.coverage.(complete := false))
  }

  predicate Advances(o: Cursor, c: Content, failed: bool) {
    c.finalPage && !failed && Contiguous(o.coverage.covered, c.window)
  }

  function CoverageAfter(row: CoverageRow, o: Cursor, c: Content, failed: bool, now: Time): CoverageRow {
    if Advances(o, c, failed) then CoverageRow(Some(Hull(o.coverage.covered, c.window)), Some(now), true)
    else if o.scan != Some(c.scan) || (c.finalPage && failed) then row.(complete := false)
    else row
  }

  /** The server after it computes a page, and its answer. */
  function Computed(s: Server, e: Envelope, now: Time): (Server, Ack) {
    var c, o := e.content, Entered(s.orders, e.content);
    var results := ResultsOf(s.entries, c.records, now);
    var failed := o.failed || AnyRejected(results);
    var orders := Cursor(
      CoverageAfter(s.orders.coverage, s.orders, c, failed, now), if c.finalPage then None else o.scan, o.scanFrom,
      if c.finalPage then None else o.scanThrough, o.nextPage + 1, failed, now);
    var ack := Ack(e.requestId, results, Advances(s.orders, c, failed), now);
    (Server(orders, CoverageAfter(s.refunds, s.orders, c, failed, now), s.pages[KeyOf(c) := BatchPage(c, ack)],
       s.receipts, WithRecords(s.entries, c.records, now), s.counts), ack)
  }

  function Batched(s: Server, e: Envelope, now: Time): Result<(Server, Ack), Problem> {
    var c := e.content;
    if KeyOf(c) in s.pages then
      if s.pages[KeyOf(c)].content != c then Err(ScanPageContentConflict)
      else Ok((s, s.pages[KeyOf(c)].result.(requestId := e.requestId, serverTime := now)))
    else if !AcceptableWindow(c.window, now) then Err(InvalidCoverageWindow)
    else if !InSequence(s.orders, c, now) then Err(ScanSequenceConflict)
    else Ok(Computed(s, e, now))
  }

  function Answer(s: Server, e: Envelope, now: Time): Result<Ack, Problem> {
    if !(-SIGNATURE_SKEW <= now - e.sentAt <= SIGNATURE_SKEW) then Err(SignatureExpired)
    else if e.requestId in s.receipts then
      if s.receipts[e.requestId].body != e then Err(RequestIdConflict) else Ok(s.receipts[e.requestId].result)
    else if Limited(s, now) then Err(RateLimited)
    else
      match Batched(s, e, now)
      case Err(p) => Err(p)
      case Ok(done) => Ok(done.1)
  }

  /** The server after a request; one that raises changes nothing. */
  function Received(s: Server, e: Envelope, now: Time): Server {
    if Answer(s, e, now).Err? || e.requestId in s.receipts then s
    else
      var done := Batched(s, e, now).value;
      done.0.(receipts := done.0.receipts[e.requestId := Receipt(e, done.1)], counts := Counted(s.counts, now))
  }

  class Connector {
    var position: Position
    var pages: map<PageKey, BatchPage>
    var receipts: map<Uuid, Receipt>
    var counts: map<int, nat>
    const store: ProjectionStore

    constructor ()
      ensures State() == NEW_SERVER && fresh(store)
    {
      position, pages, receipts, counts := Position(None, None, None, 1, false, 0), map[], map[], map[];
      store := new ProjectionStore();
    }

    function Orders(): Cursor
      reads this, store
    {
      Cursor(RowOf(store.coverage, ORDERS), position.scan, position.scanFrom, position.scanThrough, position.nextPage,
        position.failed, position.updatedAt)
    }

    function State(): Server
      reads this, store
    {
      Server(Orders(), RowOf(store.coverage, REFUNDS), pages, receipts, store.entries, counts)
    }

    method SaveOrders(c: Cursor)
      modifies this`position, store`coverage
      ensures Orders() == c && RowOf(store.coverage, REFUNDS) == old(RowOf(store.coverage, REFUNDS))
    {
      position := Position(c.scan, c.scanFrom, c.scanThrough, c.nextPage, c.failed, c.updatedAt);
      store.coverage := store.coverage[ORDERS := c.coverage];
    }

    method RefundsIncomplete()
      modifies store`coverage
      ensures RowOf(store.coverage, REFUNDS) == Incomplete(old(RowOf(store.coverage, REFUNDS)))
      ensures RowOf(store.coverage, ORDERS) == old(RowOf(store.coverage, ORDERS))
    {
      if REFUNDS in store.coverage {
        store.coverage := store.coverage[REFUNDS := store.coverage[REFUNDS].(complete := false)];
      }
    }

    /** Stores one record inside a savepoint. */
    method AcceptRecord(r: Record, now: Time) returns (status: Status)
      modifies store
      ensures store.coverage == old(store.coverage)
      ensures store.entries == WithRecord(old(store.entries), r, now)
      ensures status == StatusOf(old(store.entries), r, now)
    {
      if r.revision.None? || r.revision.value > now + FUTURE_SKEW || r.data.None? {
        return Rejected;
      }
      var stored := store.UpsertOrRollBack(ProjectionKey(r), r.revision.value, r.data.value);
      match stored {
        case Err(_) => status := Rejected;
        case Ok(disposition) => status := if disposition.Accepted? then StatusAccepted else StatusDuplicate;
      }
    }

    method AcceptRecords(records: seq<Record>, now: Time) returns (results: seq<RecordResult>, failed: bool)
      modifies store
      ensures store.coverage == old(store.coverage)
      ensures store.entries == WithRecords(old(store.entries), records, now)
      ensures results == ResultsOf(old(store.entries), records, now)
      ensures failed <==> AnyRejected(results)
    {
      results, failed := [], false;
      ghost var entries := store.entries;
      for i := 0 to |records|
        invariant store.coverage == old(store.coverage)
        invariant store.entries == WithRecords(entries, records[..i], now)
        invariant results == ResultsOf(entries, records[..i], now)
        invariant failed <==> AnyRejected(results)
      {
        assert records[..i + 1][..i] == records[..i];
        var status := AcceptRecord(records[i], now);
        var result := RecordResult(records[i].sourceId, records[i].kind, status);
        RejectedAppend(results, result);
        results := results + [result];
        if status == Rejected {
          failed := true;
        }
      }
      assert records[..|records|] == records;
    }

    /** The end of a scan: a whole and contiguous one advances the coverage, a failed one leaves it incomplete. */
    method FinishScan(o: Cursor, window: Interval, now: Time) returns (cursor: Cursor, advanced: bool)
      modifies store`coverage
      ensures RowOf(store.coverage, ORDERS) == old(RowOf(store.coverage, ORDERS))
      ensures advanced <==> !o.failed && Contiguous(o.coverage.covered, window)
      ensures var reached := CoverageRow(Some(Hull(o.coverage.covered, window)), Some(now), true);
        && cursor.coverage == (if advanced then reached else if o.failed then Incomplete(o.coverage) else o.coverage)
        && RowOf(store.coverage, REFUNDS) ==
           var row := old(RowOf(store.coverage, REFUNDS));
           if advanced then reached else if o.failed then Incomplete(row) else row
      ensures cursor == o.(coverage := cursor.coverage, scan := None, scanThrough := None)
    {
      cursor, advanced := o, false;
      var contiguous := o.coverage.covered.None? || window.from <= o.coverage.covered.value.through;
      if !o.failed && contiguous {
        cursor := cursor.(coverage := CoverageRow(Some(Hull(o.coverage.covered, window)), Some(now), true));
        store.coverage := store.coverage[REFUNDS := cursor.coverage];
        advanced := true;
      } else if o.failed {
        cursor := cursor.(coverage := cursor.coverage.(complete := false));
        RefundsIncomplete();
      }
      cursor := cursor.(scan := None, scanThrough := None);
    }

    /** May leave the refunds cursor changed when it raises; only for use inside a transaction. */
    method AcceptBatch(e: Envelope, now: Time) returns (r: Result<Ack, Problem>)
      modifies this, store
      ensures match Batched(old(State()), e, now)
              case Err(p) => r == Err(p)
              case Ok(done) => r == Ok(done.1) && State() == done.0
      ensures receipts == old(receipts) && counts == old(counts)
      ensures r.Err? ==> position == old(position) && pages == old(pages)
    {
      hide WithRecords, ResultsOf, AnyRejected, Hull;
      var c := e.content;
      var key := KeyOf(c);
      if key in pages {
        var prior := pages[key];
        if prior.content != c {
          return Err(ScanPageContentConflict);
        }
        return Ok(prior.result.(requestId := e.requestId, serverTime := now));
      }
      var start, end := c.window.from, c.window.through;
      if !(now - 36 * DAY <= start <= end <= now + FUTURE_SKEW) {
        return Err(InvalidCoverageWindow);
      }
      var cursor := Orders();
      if cursor.scan != Some(c.scan) {
        if c.page != 1
          || (cursor.scan.Some? && !cursor.failed && cursor.scanThrough.Some? && cursor.updatedAt > now - 30 * MINUTE)
        {
          return Err(ScanSequenceConflict);
        }
        cursor := cursor.(scan := Some(c.scan), scanFrom := Some(start), scanThrough := Some(end), nextPage := 1);
        cursor := cursor.(failed := false, coverage := cursor.coverage.(complete := false));
        RefundsIncomplete();
      }
      if cursor.nextPage != c.page || cursor.scanFrom != Some(start) || cursor.scanThrough != Some(end) {
        return Err(ScanSequenceConflict);
      }
      var advanced := false;
      var results, anyRejected := AcceptRecords(c.records, now);
      if anyRejected {
        cursor := cursor.(failed := true);
      }
      cursor := cursor.(nextPage := cursor.nextPage + 1, updatedAt := now);
      if c.finalPage {
        cursor, advanced := FinishScan(cursor, c.window, now);
      }
      SaveOrders(cursor);
      var result := Ack(e.requestId, results, advanced, now);
      pages := pages[key := BatchPage(c, result)];
      r := Ok(result);
    }

    /** A signed batch request: one transaction around the receipt check and the batch. */
    method Receive(e: Envelope, now: Time) returns (r: Result<Ack, Problem>)
      modifies this, store
      ensures State() == Received(old(State()), e, now)
      ensures r == Answer(old(State()), e, now)
    {
      if now - e.sentAt > SIGNATURE_SKEW || e.sentAt - now > SIGNATURE_SKEW {
        return Err(SignatureExpired);
      }
      if e.requestId in receipts {
        if receipts[e.requestId].body != e {
          return Err(RequestIdConflict);
        }
        return Ok(receipts[e.requestId].result);
      }
      var coverageBefore, entriesBefore, countsBefore := store.coverage, store.entries, counts;
      var window := now / MINUTE;
      var count := if window in counts then counts[window] else 0;
      if count >= QUOTA {
        return Err(RateLimited);
      }
      CountingApart(State(), e, now, counts[window := count + 1]);
      counts := counts[window := count + 1];
      r := AcceptBatch(e, now);
      if r.Err? {
        store.coverage, store.entries, counts := coverageBefore, entriesBefore, countsBefore;
        return;
      }
      receipts := receipts[e.requestId := Receipt(e, r.value)];
    }
  }

  /** A batch does not depend on the requests counted. */
  lemma CountingApart(s: Server, e: Envelope, now: Time, counts: map<int, nat>)
    ensures Batched(s.(counts := counts), e, now)
         == match Batched(s, e, now)
            case Err(p) => Err(p)
            case Ok(done) => Ok((done.0.(counts := counts), done.1))
  {
    hide WithRecords, ResultsOf, AnyRejected, Hull, CoverageAfter, Advances;
  }

  lemma RejectedAppend(results: seq<RecordResult>, result: RecordResult)
    ensures AnyRejected(results + [result]) <==> AnyRejected(results) || result.status == Rejected
  {
    var all := results + [result];
    if AnyRejected(results) {
      var r :| r in results && r.status == Rejected;
      assert r in all;
    }
    assert result in all;
  }
}
