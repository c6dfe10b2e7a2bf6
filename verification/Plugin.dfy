/**
 The client half of the shop scan: a snapshot of order ids is read page by page, the page under way is kept until it
 is acknowledged, and a finished scan moves the cursor. The shop is paired and the scan lock is free.
 */
module Plugin {
  import opened Wrappers
  import opened Domain
  import opened Intervals
  import opened WooBatches

  type OrderId = nat

  /** The facts of an order as they can be read now; absent when reading it throws. */
  type Extraction = OrderId -> Option<seq<Record>>

  /** The order ids in a window, in ascending order. */
  type Query = Interval -> seq<OrderId>

  datatype ScanOption = Scan(
    scan: Uuid, ids: seq<OrderId>, offset: nat, page: nat, window: Interval, carry: seq<Record>,
    pending: Option<Envelope>, attempt: nat)

  /** The saved scan: the next order to read is one of its ids, or there is none left. */
  type Scan = s: ScanOption | s.offset <= |s.ids| witness Scan(0, [], 0, 1, Interval(0, 0), [], None, 0)

  const PAGE_SIZE := 100
  const SCAN_LIMIT := 50000

  // ----- starting a scan -----

  function WindowFor(cursor: Option<Time>, repair: bool, now: Time): Interval {
    var through := now - 2 * MINUTE;
    Interval(if repair || cursor.None? then through - 35 * DAY else cursor.value - 30 * MINUTE, through)
  }

  function Started(scan: Option<Scan>, cursor: Option<Time>, repair: bool, now: Time, id: Uuid, query: Query):
    Option<Scan>
  {
    var window := WindowFor(cursor, repair, now);
    if scan.Some? || |query(window)| > SCAN_LIMIT then scan
    else Some(Scan(id, query(window), 0, 1, window, [], None, 0))
  }

  // ----- filling a page -----

  datatype Filled = Filled(offset: nat, records: seq<Record>, threw: bool)

  /** Reads orders until the page is full, the orders are exhausted or one cannot be read. */
  function Fill(extract: Extraction, ids: seq<OrderId>, offset: nat, records: seq<Record>): (r: Filled)
    requires offset <= |ids|
    ensures offset <= r.offset <= |ids|
    decreases |ids| - offset
  {
    if |records| >= PAGE_SIZE || offset == |ids| then Filled(offset, records, false)
    else
      match extract(ids[offset])
      case None => Filled(offset, records, true)
      case Some(facts) => Fill(extract, ids, offset + 1, records + facts)
  }

  function Take(records: seq<Record>): seq<Record> {
    if |records| > PAGE_SIZE then records[..PAGE_SIZE] else records
  }

  function Rest(records: seq<Record>): seq<Record> { if |records| > PAGE_SIZE then records[PAGE_SIZE..] else [] }

  /** The scan with its next page built from what was read. */
  function Built(s: Scan, f: Filled, requestId: Uuid, now: Time): Scan
    requires f.offset <= |s.ids|
  {
    var finalPage := f.offset >= |s.ids| && Rest(f.records) == [];
    var content := Content(s.scan, s.page, s.window, finalPage, Take(f.records));
    s.(offset := f.offset, carry := Rest(f.records), pending := Some(Envelope(requestId, now, content)))
  }

  /** The scan saved before its page is sent, or after reading an order threw. */
  function Prepared(s: Scan, extract: Extraction, requestId: Uuid, now: Time): Scan
  {
    if s.pending.Some? then
      if s.pending.value.sentAt < now - 4 * MINUTE then
        s.(pending := Some(s.pending.value.(requestId := requestId, sentAt := now)))
      else s
    else
      var f := Fill(extract, s.ids, s.offset, s.carry);
      if f.threw then s.(offset := f.offset, carry := [], attempt := s.attempt + 1)
      else Built(s, f, requestId, now)
  }

  // ----- the answer -----

  /** Every record of the page was stored, now or earlier. */
  predicate Acknowledges(a: Ack, e: Envelope) {
    && a.requestId == e.requestId && |a.results| == |e.content.records|
    && forall r :: r in a.results ==> r.status != Rejected
  }

  predicate Completes(reply: Option<Ack>, e: Envelope) {
    reply.Some? && Acknowledges(reply.value, e) && (e.content.finalPage ==> reply.value.coverageAdvanced)
  }

  /** The scan after an answer, or after none arrived. */
  function Settled(s: Scan, reply: Option<Ack>): Option<Scan>
    requires s.pending.Some?
  {
    var e := s.pending.value;
    if Completes(reply, e) then
      if e.content.finalPage then None else Some(s.(pending := None, page := s.page + 1, attempt := 0))
    else if reply.Some? && Acknowledges(reply.value, e) then Some(s.(attempt := 1))
    else Some(s.(attempt := s.attempt + 1))
  }

  function CursorAfter(cursor: Option<Time>, s: Scan, reply: Option<Ack>): Option<Time>
    requires s.pending.Some?
  {
    var e := s.pending.value;
    if Completes(reply, e) && e.content.finalPage then Some(s.window.through) else cursor
  }

  class Client {
    var scan: Option<Scan>
    var cursor: Option<Time>

    constructor ()
      ensures scan == None && cursor == None
    {
      scan, cursor := None, None;
    }

    method StartScan(repair: bool, now: Time, id: Uuid, query: Query)
      modifies this`scan
      ensures scan == Started(old(scan), cursor, repair, now, id, query)
    {
      if scan.Some? {
        return;
      }
      var through := now - 2 * MINUTE;
      var from := if repair || cursor.None? then through - 35 * DAY else cursor.value - 30 * MINUTE;
      var ids := query(Interval(from, through));
      if |ids| > SCAN_LIMIT {
        return;
      }
      scan := Some(Scan(id, ids, 0, 1, Interval(from, through), [], None, 0));
    }

    /** The part of a page run before the request is sent; nothing is sent when an order cannot be read. */
    method Prepare(extract: Extraction, requestId: Uuid, now: Time) returns (send: Option<Envelope>)
      requires scan.Some?
      modifies this`scan
      ensures scan == Some(Prepared(old(scan.value), extract, requestId, now))
      ensures send == scan.value.pending
    {
      var s := scan.value;
      if s.pending.None? {
        var records, offset := s.carry, s.offset;
        while |records| < PAGE_SIZE && offset < |s.ids|
          invariant 0 <= offset <= |s.ids|
          invariant Fill(extract, s.ids, offset, records) == Fill(extract, s.ids, s.offset, s.carry)
        {
          var facts := extract(s.ids[offset]);
          if facts.None? {
            scan := Some(s.(offset := offset, carry := [], attempt := s.attempt + 1));
            return None;
          }
          offset := offset + 1;
          records := records + facts.value;
        }
        var carry := [];
        if |records| > PAGE_SIZE {
          carry := records[PAGE_SIZE..];
          records := records[..PAGE_SIZE];
        }
        var finalPage := offset >= |s.ids| && carry == [];
        var content := Content(s.scan, s.page, s.window, finalPage, records);
        s := s.(offset := offset, carry := carry, pending := Some(Envelope(requestId, now, content)));
        scan := Some(s);
      }
      var pending := s.pending.value;
      if pending.sentAt < now - 4 * MINUTE {
        pending := pending.(requestId := requestId, sentAt := now);
        scan := Some(s.(pending := Some(pending)));
      }
      send := Some(pending);
    }

    /** The part of a page run after the request: the answer, or none. */
    method Settle(reply: Option<Ack>)
      requires scan.Some? && scan.value.pending.Some?
      modifies this
      ensures scan == Settled(old(scan.value), reply)
      ensures cursor == CursorAfter(old(cursor), old(scan.value), reply)
    {
      var s := scan.value;
      var pending := s.pending.value;
      if reply.None? || reply.value.requestId != pending.requestId
        || |reply.value.results| != |pending.content.records|
      {
        scan := Some(s.(attempt := s.attempt + 1));
        return;
      }
      for i := 0 to |reply.value.results|
        invariant forall j :: 0 <= j < i ==> reply.value.results[j].status != Rejected
      {
        if reply.value.results[i].status == Rejected {
          scan := Some(s.(attempt := s.attempt + 1));
          return;
        }
      }
      s := s.(attempt := 0);
      if pending.content.finalPage {
        if !reply.value.coverageAdvanced {
          scan := Some(s.(attempt := s.attempt + 1));
          return;
        }
        cursor := Some(s.window.through);
        scan := None;
      } else {
        scan := Some(s.(pending := None, page := s.page + 1));
      }
    }
  }

  /**
   A request that is sent was signed within the last four minutes, if its clock does not run backwards. One that is
   older is signed again: it keeps its content, and its request id exactly when it need not be signed again.
   */
  lemma SentIsFresh(s: Scan, extract: Extraction, requestId: Uuid, now: Time)
    requires s.pending.Some? ==> s.pending.value.sentAt <= now && s.pending.value.requestId != requestId
    requires Prepared(s, extract, requestId, now).pending.Some?
    ensures var e := Prepared(s, extract, requestId, now).pending.value;
      && now - 240 <= e.sentAt <= now
      && (s.pending.None? ==> e.requestId == requestId && e.sentAt == now)
      && (s.pending.Some? ==>
            var saved := s.pending.value;
            && e.content == saved.content
            && (e.requestId == saved.requestId <==> now - 240 <= saved.sentAt)
            && (e.requestId == saved.requestId ==> e == saved))
  {
  }

  /**
   A scan starts over the last 35 days when repairing or when there is no cursor, and otherwise half an hour before the
   cursor; it ends two minutes ago. More than 50,000 orders are too many.
   */
  lemma StartsOver(cursor: Option<Time>, repair: bool, now: Time, id: Uuid, query: Query)
    ensures var from := if repair || cursor.None? then now - 120 - 35 * 86400 else cursor.value - 1800;
      var window, started := Interval(from, now - 120), Started(None, cursor, repair, now, id, query);
      && (started.Some? <==> |query(window)| <= 50000)
      && (started.Some? ==>
            var s := started.value;
            && s.scan == id && s.ids == query(window) && s.window == window && s.offset == 0 && s.page == 1
            && s.carry == [] && s.pending.None? && s.attempt == 0)
  {
  }

  /** What an answer does: a refused or missing one costs an attempt, and the last page needs the advance. */
  lemma AnswerSettles(s: Scan, cursor: Option<Time>, reply: Option<Ack>)
    requires s.pending.Some?
    ensures var e, t := s.pending.value, Settled(s, reply);
      var stored := reply.Some? && reply.value.requestId == e.requestId
                      && |reply.value.results| == |e.content.records|
                      && forall i :: 0 <= i < |reply.value.results| ==>
                           var status := reply.value.results[i].status;
                           status == StatusAccepted || status == StatusDuplicate;
      && (t.None? <==> stored && e.content.finalPage && reply.value.coverageAdvanced)
      && CursorAfter(cursor, s, reply) == (if t.None? then Some(s.window.through) else cursor)
      && (t.Some? && stored && !e.content.finalPage ==>
            t.value == s.(pending := None, page := s.page + 1, attempt := 0))
      && (t.Some? && stored && e.content.finalPage ==> t.value == s.(attempt := 1))
      && (!stored ==> t == Some(s.(attempt := s.attempt + 1)))
  {
    if reply.Some? {
      var results := reply.value.results;
      assert (forall r :: r in results ==> r.status != Rejected) <==>
             forall i :: 0 <= i < |results| ==> results[i].status != Rejected;
    }
  }

  // ----- paging -----

  /** The facts of each order. */
  type Shop = OrderId -> seq<Record>

  function FactsOf(ids: seq<OrderId>, shop: Shop): seq<Record> {
    if ids == [] then [] else shop(ids[0]) + FactsOf(ids[1..], shop)
  }

  /** The records that the scan has still to get acknowledged. */
  function Remaining(s: Scan, shop: Shop): seq<Record>
  {
    (if s.pending.Some? then s.pending.value.content.records else []) + s.carry + FactsOf(s.ids[s.offset..], shop)
  }

  lemma {:induction false} FillGathers(
      extract: Extraction, ids: seq<OrderId>, offset: nat, records: seq<Record>, shop: Shop)
    requires offset <= |ids|
    requires forall i ::
      offset <= i < Fill(extract, ids, offset, records).offset ==> extract(ids[i]) == Some(shop(ids[i]))
    ensures var f := Fill(extract, ids, offset, records);
      records + FactsOf(ids[offset..], shop) == f.records + FactsOf(ids[f.offset..], shop)
    decreases |ids| - offset
  {
    if !(|records| >= PAGE_SIZE || offset == |ids|) && extract(ids[offset]).Some? {
      var facts := extract(ids[offset]).value;
      FillGathers(extract, ids, offset + 1, records + facts, shop);
      assert ids[offset..][1..] == ids[offset + 1..];
      assert records + (facts + FactsOf(ids[offset + 1..], shop)) == records + facts + FactsOf(ids[offset + 1..], shop);
    }
  }

  lemma {:induction false} FillFinishes(extract: Extraction, ids: seq<OrderId>, offset: nat, records: seq<Record>)
    requires offset <= |ids|
    ensures var f := Fill(extract, ids, offset, records);
      && (f.threw <==> f.offset < |ids| && |f.records| < PAGE_SIZE)
      && (f.threw ==> extract(ids[f.offset]).None?)
      && (forall i :: offset <= i < f.offset ==> extract(ids[i]).Some?)
    decreases |ids| - offset
  {
    if !(|records| >= PAGE_SIZE || offset == |ids|) && extract(ids[offset]).Some? {
      FillFinishes(extract, ids, offset + 1, records + extract(ids[offset]).value);
    }
  }
}
