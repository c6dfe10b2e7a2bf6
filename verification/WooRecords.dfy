/** Where the records of a page go, and what they leave behind. */
module WooRecords {
  import opened Wrappers
  import opened Domain
  import opened Intervals
  import opened Projections
  import opened WooBatches
  import opened WooServer
  import opened WooRuns

  /** An order is projected as an order; any other record is a refund of the shop. */
  predicate GoesTo(r: Record, key: Key) {
    key.sourceId == r.sourceId && if r.kind == "order" then key.kind == "order" else key.kind == "woo_refund"
  }

  predicate SameObject(q: Record, r: Record) {
    q.sourceId == r.sourceId && (q.kind == "order" <==> r.kind == "order")
  }

  /** The record can be read, and is reflected in the projection of its object. */
  predicate Shown(entries: Entries, r: Record) {
    && r.revision.Some? && r.data.Some?
    && var o := Observation(r.revision.value, r.data.value);
       if r.kind == "order" then Reflects(EntryOf(entries, Key("order", r.sourceId)), o)
       else Reflects(EntryOf(entries, Key("woo_refund", r.sourceId)), o)
  }

  ghost predicate AllReflected(entries: Entries, records: seq<Record>) {
    forall r :: r in records ==> Shown(entries, r)
  }

  predicate Rises(q: Record, r: Record) {
    SameObject(q, r) && q.revision.Some? && r.revision.Some? ==> q.revision.value <= r.revision.value
  }

  /** Of the records of one source object none is older than one before it. */
  ghost predicate RevisionsRise(records: seq<Record>) {
    forall i, j :: 0 <= i < j < |records| ==> Rises(records[i], records[j])
  }

  lemma RiseBefore(records: seq<Record>, more: seq<Record>)
    requires RevisionsRise(records + more)
    ensures RevisionsRise(records)
  {
    hide Rises;
    var all := records + more;
    forall i, j | 0 <= i < j < |records| ensures Rises(records[i], records[j]) {
      assert all[i] == records[i] && all[j] == records[j];
    }
  }

  lemma RecordReflected(entries: Entries, records: seq<Record>, r: Record, now: Time)
    requires AllReflected(entries, records) && StatusOf(entries, r, now) != Rejected
    requires forall q :: q in records ==> Rises(q, r)
    ensures AllReflected(WithRecord(entries, r, now), records + [r])
  {
    hide Reflects, StoredIn;
    var o := Observation(r.revision.value, r.data.value);
    StoredInReflects(entries, ProjectionKey(r), o);
    forall q | q in records ensures Shown(WithRecord(entries, r, now), q) {
      StoredInKeeps(entries, ProjectionKey(q), Observation(q.revision.value, q.data.value), ProjectionKey(r), o);
    }
  }

  lemma {:induction false} PageReflected(entries: Entries, records: seq<Record>, page: seq<Record>, now: Time)
    requires AllReflected(entries, records) && RevisionsRise(records + page)
    requires !AnyRejected(ResultsOf(entries, page, now))
    ensures AllReflected(WithRecords(entries, page, now), records + page)
  {
    hide AllReflected, Rises, StatusOf, WithRecord, AnyRejected;
    assert records + [] == records;
    if page != [] {
      var init, r := page[..|page| - 1], page[|page| - 1];
      var all := records + page;
      assert all == records + init + [r];
      NoneRejected(entries, page, now);
      RiseBefore(records + init, [r]);
      PageReflected(entries, records, init, now);
      forall q | q in records + init ensures Rises(q, r) {
        var i :| 0 <= i < |records + init| && (records + init)[i] == q;
        assert all[i] == q && all[|all| - 1] == r;
      }
      RecordReflected(WithRecords(entries, init, now), records + init, r, now);
    }
  }

  lemma NoneRejected(entries: Entries, page: seq<Record>, now: Time)
    requires page != [] && !AnyRejected(ResultsOf(entries, page, now))
    ensures var init, r := page[..|page| - 1], page[|page| - 1];
      !AnyRejected(ResultsOf(entries, init, now)) && StatusOf(WithRecords(entries, init, now), r, now) != Rejected
  {
    hide StatusOf, WithRecords;
    var results := ResultsOf(entries, page, now);
    assert results[|page| - 1] in results;
    assert forall r :: r in ResultsOf(entries, page[..|page| - 1], now) ==> r in results;
  }

  // ----- one page -----

  lemma RecordLeaves(entries: Entries, r: Record, now: Time, key: Key)
    requires !GoesTo(r, key)
    ensures EntryOf(WithRecord(entries, r, now), key) == EntryOf(entries, key)
    ensures key in WithRecord(entries, r, now) <==> key in entries
  {
    hide Stored, Conflicts, SameContent;
  }

  /** A page touches no other object. */
  lemma {:induction false} PageLeaves(entries: Entries, records: seq<Record>, now: Time, key: Key)
    requires forall r :: r in records ==> !GoesTo(r, key)
    ensures EntryOf(WithRecords(entries, records, now), key) == EntryOf(entries, key)
    ensures key in WithRecords(entries, records, now) <==> key in entries
  {
    hide GoesTo, WithRecord;
    if records != [] {
      var init, r := records[..|records| - 1], records[|records| - 1];
      PageLeaves(entries, init, now, key);
      RecordLeaves(WithRecords(entries, init, now), r, now, key);
    }
  }

  /** What is shown stays so while no older record of its object comes. */
  lemma {:induction false} StaysShown(entries: Entries, r: Record, later: seq<Record>, now: Time)
    requires Shown(entries, r) && forall q :: q in later ==> Rises(r, q)
    ensures Shown(WithRecords(entries, later, now), r)
  {
    if later != [] {
      hide Shown, Rises, WithRecord;
      var init, last := later[..|later| - 1], later[|later| - 1];
      StaysShown(entries, r, init, now);
      assert last in later;
      StepShown(WithRecords(entries, init, now), r, last, now);
    }
  }

  lemma StepShown(entries: Entries, r: Record, next: Record, now: Time)
    requires Shown(entries, r) && Rises(r, next)
    ensures Shown(WithRecord(entries, next, now), r)
  {
    hide Reflects, StoredIn;
    if Usable(next, now) {
      var o := Observation(next.revision.value, next.data.value);
      StoredInKeeps(entries, ProjectionKey(r), Observation(r.revision.value, r.data.value), ProjectionKey(next), o);
    }
  }

  lemma {:induction false} ReadInTwo(entries: Entries, records: seq<Record>, now: Time, i: nat)
    requires i <= |records|
    ensures WithRecords(entries, records, now)
         == WithRecords(WithRecords(entries, records[..i], now), records[i..], now)
  {
    hide WithRecord;
    if i == |records| {
      assert records[..i] == records;
    } else {
      var init := records[..|records| - 1];
      ReadInTwo(entries, init, now, i);
      assert init[..i] == records[..i] && records[i..][..|records| - i - 1] == init[i..];
    }
  }

  lemma StoredRecordShown(entries: Entries, r: Record, now: Time)
    requires StatusOf(entries, r, now) != Rejected
    ensures Shown(WithRecord(entries, r, now), r)
  {
    hide Reflects, StoredIn;
    StoredInReflects(entries, ProjectionKey(r), Observation(r.revision.value, r.data.value));
  }

  lemma ReadNext(entries: Entries, records: seq<Record>, now: Time, i: nat)
    requires i < |records|
    ensures WithRecords(entries, records[..i + 1], now)
         == WithRecord(WithRecords(entries, records[..i], now), records[i], now)
  {
    hide WithRecord;
    assert records[..i + 1][..i] == records[..i];
  }

  /** A record that was not rejected is shown after its page, if no older record of its object follows in it. */
  lemma AcceptedIsShown(entries: Entries, records: seq<Record>, now: Time, i: nat)
    requires i < |records| && ResultsOf(entries, records, now)[i].status != Rejected
    requires forall j :: i < j < |records| ==> Rises(records[i], records[j])
    ensures Shown(WithRecords(entries, records, now), records[i])
  {
    hide Shown, Rises, StatusOf, WithRecord, WithRecords, ResultsOf;
    ResultAt(entries, records, now, i);
    var before := WithRecords(entries, records[..i], now);
    StoredRecordShown(before, records[i], now);
    ReadNext(entries, records, now, i);
    ReadInTwo(entries, records, now, i + 1);
    forall q | q in records[i + 1..] ensures Rises(records[i], q) {}
    StaysShown(WithRecord(before, records[i], now), records[i], records[i + 1..], now);
  }

  /**
   What a newly computed page does: each record that it did not reject is reflected, as an order or as a refund by its
   kind, unless the page brings its object again with an older revision; and no other object is touched.
   */
  lemma PageStores(ds: seq<Delivery>, d: Delivery)
    requires Computes(After(ds).server, d)
    ensures var s, t := After(ds).server, After(ds + [d]).server;
      var records, results := d.envelope.content.records, PageOf(s, d).results;
      && |results| == |records|
      && (forall i :: 0 <= i < |records| && results[i].status != Rejected ==>
            (forall j :: i < j < |records| ==> Rises(records[i], records[j])) ==> Shown(t.entries, records[i]))
      && (forall key :: (forall r :: r in records ==> !GoesTo(r, key)) ==>
            EntryOf(t.entries, key) == EntryOf(s.entries, key) && (key in t.entries <==> key in s.entries))
  {
    hide Shown, Rises, GoesTo, ResultsOf, WithRecords;
    var s, records, now := After(ds).server, d.envelope.content.records, d.now;
    AppendDelivery(ds, d);
    PageIsRead(s, d);
    forall i | 0 <= i < |records| && PageOf(s, d).results[i].status != Rejected
        && (forall j :: i < j < |records| ==> Rises(records[i], records[j]))
      ensures Shown(WithRecords(s.entries, records, now), records[i])
    {
      AcceptedIsShown(s.entries, records, now, i);
    }
    forall key | forall r :: r in records ==> !GoesTo(r, key)
      ensures EntryOf(WithRecords(s.entries, records, now), key) == EntryOf(s.entries, key)
      ensures key in WithRecords(s.entries, records, now) <==> key in s.entries
    {
      PageLeaves(s.entries, records, now, key);
    }
  }

  lemma PageIsRead(s: Server, d: Delivery)
    requires Computes(s, d)
    ensures PageOf(s, d).results == ResultsOf(s.entries, d.envelope.content.records, d.now)
    ensures Received(s, d.envelope, d.now).entries == WithRecords(s.entries, d.envelope.content.records, d.now)
  {
    hide WithRecords, ResultsOf, AnyRejected, CoverageAfter, Entered, InSequence, AcceptableWindow, Advances;
  }

  /** The rows of the record's object when its turn in the page comes. */
  function RowsAt(entries: Entries, records: seq<Record>, now: Time, i: nat): Entry
    requires i < |records|
  {
    EntryOf(WithRecords(entries, records[..i], now),
      Key(if records[i].kind == "order" then "order" else "woo_refund", records[i].sourceId))
  }

  /**
   A record is rejected when its time or amounts do not parse, when it is more than two minutes ahead, or when its
   object is projected at its revision with other content. It is accepted when it is new, or newer and different.
   */
  lemma ResultMeans(entries: Entries, records: seq<Record>, now: Time, i: nat)
    requires i < |records|
    ensures var status := ResultsOf(entries, records, now)[i].status;
      var r, e := records[i], RowsAt(entries, records, now, i);
      && (status == Rejected <==>
            || r.revision.None? || r.data.None? || r.revision.value > now + 120
            || (e.current.Some? && e.current.value.revision == r.revision.value
                && e.current.value.observation.data != r.data.value))
      && (status == StatusAccepted <==>
            && r.revision.Some? && r.data.Some? && r.revision.value <= now + 120
            && (e.current.Some? ==>
                  e.current.value.observation.data != r.data.value && e.current.value.revision < r.revision.value))
  {
    hide WithRecords, ResultsOf;
    ResultAt(entries, records, now, i);
  }

  // ----- the whole request -----

  /** Another scan is on the cursor: not failed, and with a page in the last half hour. */
  predicate Occupied(o: Cursor, now: Time) {
    o.scan.Some? && o.scanThrough.Some? && !o.failed && now < o.updatedAt + 1800
  }

  /** When each refusal happens, in the order of the checks. */
  lemma RefusedIff(s: Server, e: Envelope, now: Time)
    ensures var c, o, answer := e.content, s.orders, Answer(s, e, now);
      var timely := e.sentAt - 300 <= now <= e.sentAt + 300;
      var quotaLeft := now / 60 in s.counts ==> s.counts[now / 60] < 240;
      var firstTime := timely && e.requestId !in s.receipts;
      var unseen := firstTime && quotaLeft && KeyOf(c) !in s.pages;
      var window := now - 36 * 86400 <= c.window.from <= c.window.through <= now + 120;
      var expected := if o.scan == Some(c.scan)
        then c.page == o.nextPage && o.scanFrom == Some(c.window.from) && o.scanThrough == Some(c.window.through)
        else c.page == 1 && !Occupied(o, now);
      && (answer == Err(SignatureExpired) <==> !timely)
      && (answer == Err(RequestIdConflict) <==>
            timely && e.requestId in s.receipts && s.receipts[e.requestId].body != e)
      && (answer == Err(RateLimited) <==> firstTime && !quotaLeft)
      && (answer == Err(ScanPageContentConflict) <==>
            firstTime && quotaLeft && KeyOf(c) in s.pages && s.pages[KeyOf(c)].content != c)
      && (answer == Err(InvalidCoverageWindow) <==> unseen && !window)
      && (answer == Err(ScanSequenceConflict) <==> unseen && window && !expected)
  {
    hide WithRecords, ResultsOf, AnyRejected, CoverageAfter, Entered, Advances;
  }

  /**
   What a computed page leaves of the coverage. One that advances extends it, for orders and refunds alike, observed at
   its own time. Any other leaves interval and time; it drops completeness when it takes over the cursor, or ends a scan
   of which a record was rejected.
   */
  lemma CoverageLeft(ds: seq<Delivery>, d: Delivery)
    requires Computes(After(ds).server, d)
    ensures var s, t, p := After(ds).server, After(ds + [d]).server, PageOf(After(ds).server, d);
      var before, w := s.refunds, d.envelope.content.window;
      && t.orders.coverage == t.refunds
      && (p.advanced ==>
            && t.refunds.complete && t.refunds.observedAt == Some(d.now) && t.refunds.covered.Some?
            && (before.covered.None? ==> t.refunds.covered.value == w)
            && (before.covered.Some? ==>
                  && t.refunds.covered.value.from
                    == (if w.from < before.covered.value.from then w.from else before.covered.value.from)
                  && t.refunds.covered.value.through
                    == (if w.through > before.covered.value.through then w.through else before.covered.value.through)))
      && (!p.advanced ==>
            && t.refunds.covered == before.covered && t.refunds.observedAt == before.observedAt
            && (t.refunds.complete <==>
                  before.complete && s.orders.scan == Some(d.envelope.content.scan)
                  && !(d.envelope.content.finalPage && t.orders.failed)))
  {
    hide WithRecords, ResultsOf, AnyRejected, InProgress, PagesSound, ReceiptsSound, LogStored, Windows, HullOf,
      AcceptableWindow;
    AlwaysKept(ds);
    AppendDelivery(ds, d);
    CursorSteps(After(ds).server, d);
  }

  /** What a computed page leaves of the sequence: the next page of its scan, or no scan after the final one. */
  lemma SequenceLeft(s: Server, d: Delivery)
    requires Computes(s, d)
    ensures var c, t := d.envelope.content, Received(s, d.envelope, d.now).orders;
      var continued := s.orders.scan == Some(c.scan);
      && t.nextPage == c.page + 1 && t.updatedAt == d.now && t.scanFrom == Some(c.window.from)
      && (c.finalPage ==> t.scan.None? && t.scanThrough.None?)
      && (!c.finalPage ==> t.scan == Some(c.scan) && t.scanThrough == Some(c.window.through))
      && (t.failed <==> (continued && s.orders.failed)
                        || exists r :: r in PageOf(s, d).results && r.status == Rejected)
      && (PageOf(s, d).advanced <==> c.finalPage && !t.failed
                                     && (s.orders.coverage.covered.Some? ==>
                                           c.window.from <= s.orders.coverage.covered.value.through))
  {
    hide WithRecords, ResultsOf, Hull, AcceptableWindow, Busy;
    CursorSteps(s, d);
  }

  /**
   A request that is answered anew gets a receipt and counts against the quota of its minute; the answer names it and
   the server's time. One that is refused, or answered from its receipt, leaves the server as it was.
   */
  lemma AnswerLeaves(s: Server, e: Envelope, now: Time)
    ensures var t, answer := Received(s, e, now), Answer(s, e, now);
      && (answer.Err? || e.requestId in s.receipts ==> t == s)
      && (answer.Ok? && e.requestId !in s.receipts ==>
            && answer.value.requestId == e.requestId && answer.value.serverTime == now
            && t.receipts == s.receipts[e.requestId := Receipt(e, answer.value)]
            && t.counts == s.counts[now / 60 := (if now / 60 in s.counts then s.counts[now / 60] else 0) + 1]
            && KeyOf(e.content) in t.pages && t.pages[KeyOf(e.content)].result.results == answer.value.results
            && (forall key :: key != KeyOf(e.content) ==>
                  (key in t.pages <==> key in s.pages) && (key in s.pages ==> t.pages[key] == s.pages[key])))
  {
    hide WithRecords, ResultsOf, AnyRejected, CoverageAfter, Entered, Advances, AcceptableWindow, InSequence;
  }
}
