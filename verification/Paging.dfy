/** The pages that one scan of the plugin gets acknowledged, over every run with lost, late and repeated answers. */
module Paging {
  import opened Wrappers
  import opened Ordering
  import opened Domain
  import opened Intervals
  import opened WooBatches
  import opened Plugin

  datatype Step =
    | Prepare(extract: Extraction, requestId: Uuid, now: Time)
    | Settle(reply: Option<Ack>)

  /** The scan, and the contents of the pages acknowledged so far. */
  datatype Progress = Progress(scan: Option<Scan>, acknowledged: seq<Content>)

  function Moved(p: Progress, step: Step): Progress {
    if p.scan.None? then p
    else
      var s := p.scan.value;
      match step
      case Prepare(extract, requestId, now) => p.(scan := Some(Prepared(s, extract, requestId, now)))
      case Settle(reply) =>
        if s.pending.None? then p
        else
          Progress(Settled(s, reply),
            p.acknowledged + if Completes(reply, s.pending.value) then [s.pending.value.content] else [])
  }

  function After(start: Scan, steps: seq<Step>): Progress {
    if steps == [] then Progress(Some(start), [])
    else Moved(After(start, steps[..|steps| - 1]), steps[|steps| - 1])
  }

  function RecordsOf(pages: seq<Content>): seq<Record> {
    if pages == [] then [] else RecordsOf(pages[..|pages| - 1]) + pages[|pages| - 1].records
  }

  /** The orders that the next page reads are as in the shop. */
  predicate Agrees(s: Scan, extract: Extraction, shop: Shop) {
    s.pending.None? ==>
      forall i :: s.offset <= i < Fill(extract, s.ids, s.offset, s.carry).offset ==>
        extract(s.ids[i]) == Some(shop(s.ids[i]))
  }

  /** Each order is read as it is in the shop. */
  ghost predicate ReadsShop(start: Scan, steps: seq<Step>, shop: Shop) {
    forall i :: 0 <= i < |steps| && steps[i].Prepare? ==>
      var p := After(start, steps[..i]); p.scan.Some? ==> Agrees(p.scan.value, steps[i].extract, shop)
  }

  /** Reading an order throws after records were gathered for the page. */
  predicate Drops(s: Scan, extract: Extraction) {
    && s.pending.None?
    && var f := Fill(extract, s.ids, s.offset, s.carry); f.threw && f.records != []
  }

  predicate DropsAny(start: Scan, steps: seq<Step>) {
    steps != []
    && var init, step := steps[..|steps| - 1], steps[|steps| - 1];
       || DropsAny(start, init)
       || (step.Prepare? && After(start, init).scan.Some? && Drops(After(start, init).scan.value, step.extract))
  }

  /** Pages 1 to n of a scan, all full and none of them final. */
  predicate FullPages(pages: seq<Content>, scan: Uuid, window: Interval) {
    forall i :: 0 <= i < |pages| ==>
      && pages[i].scan == scan && pages[i].page == i + 1 && pages[i].window == window
      && !pages[i].finalPage && |pages[i].records| == 100
  }

  /** Pages 1 to n of a scan; exactly the last is final, and all before it are full. */
  predicate WholeScan(pages: seq<Content>, scan: Uuid, window: Interval) {
    && pages != []
    && var last := pages[|pages| - 1];
       && FullPages(pages[..|pages| - 1], scan, window)
       && last.scan == scan && last.page == |pages| && last.window == window
       && last.finalPage && |last.records| <= 100
  }

  predicate PendingSound(s: Scan) {
    s.pending.Some? ==>
      var c := s.pending.value.content;
      && c.scan == s.scan && c.page == s.page && c.window == s.window
      && (if c.finalPage then |c.records| <= PAGE_SIZE && s.carry == [] && s.offset == |s.ids|
          else |c.records| == PAGE_SIZE)
  }

  /** All the facts, or fewer if some were dropped. */
  predicate Accounts(records: seq<Record>, facts: seq<Record>, dropped: bool) {
    if dropped then |records| < |facts| else records == facts
  }

  ghost predicate Paged(start: Scan, p: Progress, shop: Shop, dropped: bool) {
    match p.scan
    case None =>
      && WholeScan(p.acknowledged, start.scan, start.window)
      && Accounts(RecordsOf(p.acknowledged), FactsOf(start.ids, shop), dropped)
    case Some(s) =>
      && s.scan == start.scan && s.window == start.window && s.ids == start.ids && s.page == |p.acknowledged| + 1
      && FullPages(p.acknowledged, s.scan, s.window) && PendingSound(s)
      && Accounts(RecordsOf(p.acknowledged) + Remaining(s, shop), FactsOf(start.ids, shop), dropped)
  }

  lemma SlicesJoin(records: seq<Record>, rest: seq<Record>)
    ensures Take(records) + Rest(records) + rest == records + rest
    ensures Rest(records) != [] ==> |Take(records)| == PAGE_SIZE
  {
  }

  /** Building a page moves records from what is left to the page; only a throw can lose any. */
  lemma PreparedKeepsRemaining(s: Scan, extract: Extraction, requestId: Uuid, now: Time, shop: Shop)
    requires Agrees(s, extract, shop) && PendingSound(s)
    ensures var t := Prepared(s, extract, requestId, now);
      && PendingSound(t) && t.scan == s.scan && t.window == s.window && t.ids == s.ids && t.page == s.page
      && (if Drops(s, extract) then |Remaining(t, shop)| < |Remaining(s, shop)|
          else Remaining(t, shop) == Remaining(s, shop))
  {
    if s.pending.None? {
      var f := Fill(extract, s.ids, s.offset, s.carry);
      FillFinishes(extract, s.ids, s.offset, s.carry);
      FillGathers(extract, s.ids, s.offset, s.carry, shop);
      SlicesJoin(f.records, FactsOf(s.ids[f.offset..], shop));
      assert [] + s.carry == s.carry;
      assert [] + [] + FactsOf(s.ids[f.offset..], shop) == FactsOf(s.ids[f.offset..], shop);
      assert [] + FactsOf(s.ids[f.offset..], shop) == FactsOf(s.ids[f.offset..], shop);
    }
  }

  lemma RecordsAppend(pages: seq<Content>, c: Content)
    ensures RecordsOf(pages + [c]) == RecordsOf(pages) + c.records
  {
    assert (pages + [c])[..|pages|] == pages;
  }

  lemma SettledKeeps(start: Scan, p: Progress, reply: Option<Ack>, shop: Shop, dropped: bool)
    requires Paged(start, p, shop, dropped)
    ensures Paged(start, Moved(p, Settle(reply)), shop, dropped)
  {
    if p.scan.Some? && p.scan.value.pending.Some? {
      hide FactsOf, RecordsOf, Acknowledges;
      var s := p.scan.value;
      var c := s.pending.value.content;
      if Completes(reply, s.pending.value) {
        RecordsAppend(p.acknowledged, c);
        var rest := s.carry + FactsOf(s.ids[s.offset..], shop);
        assert Remaining(s, shop) == c.records + rest;
        assert RecordsOf(p.acknowledged) + (c.records + rest) == RecordsOf(p.acknowledged) + c.records + rest;
        assert [] + s.carry + FactsOf(s.ids[s.offset..], shop) == rest;
        NothingLeft(s.ids, shop);
        assert (p.acknowledged + [c])[..|p.acknowledged|] == p.acknowledged;
      } else {
        assert p.acknowledged + [] == p.acknowledged;
      }
    }
  }

  lemma NothingLeft(ids: seq<OrderId>, shop: Shop)
    ensures FactsOf(ids[|ids|..], shop) == []
  {
  }

  lemma {:induction false} AlwaysPaged(start: Scan, steps: seq<Step>, shop: Shop)
    requires start.offset == 0 && start.page == 1 && start.carry == [] && start.pending.None?
    requires ReadsShop(start, steps, shop)
    ensures Paged(start, After(start, steps), shop, DropsAny(start, steps))
  {
    if steps == [] {
      assert start.ids[0..] == start.ids;
      assert [] + ([] + [] + FactsOf(start.ids, shop)) == FactsOf(start.ids, shop);
    } else {
      var init, step := steps[..|steps| - 1], steps[|steps| - 1];
      forall i | 0 <= i < |init| && init[i].Prepare?
        ensures var p := After(start, init[..i]); p.scan.Some? ==> Agrees(p.scan.value, init[i].extract, shop)
      {
        assert init[..i] == steps[..i] && init[i] == steps[i];
      }
      AlwaysPaged(start, init, shop);
      var p := After(start, init);
      match step {
        case Settle(reply) => SettledKeeps(start, p, reply, shop, DropsAny(start, init));
        case Prepare(extract, requestId, now) =>
          if p.scan.Some? {
            PreparedKeepsRemaining(p.scan.value, extract, requestId, now, shop);
          }
      }
    }
  }

  predicate Fresh(s: Scan) { s.offset == 0 && s.page == 1 && s.carry == [] && s.pending.None? }

  lemma {:induction false} FullPagesCount(pages: seq<Content>, scan: Uuid, window: Interval)
    requires FullPages(pages, scan, window)
    ensures |RecordsOf(pages)| == PAGE_SIZE * |pages|
  {
    if pages != [] { FullPagesCount(pages[..|pages| - 1], scan, window); }
  }

  /**
   However often pages are resent and answers are lost, every acknowledged page of a scan but the last holds exactly 100
   records, exactly the last is final, and there is at most one page more than one for each hundred facts. When the
   scan is over, the pages carry the facts of its ids, none skipped and none repeated, in order, if and only if no
   order threw while its page had records.
   */
  lemma ScanDeliversEveryFact(start: Scan, steps: seq<Step>, shop: Shop)
    requires Fresh(start) && ReadsShop(start, steps, shop)
    ensures var p, facts := After(start, steps), FactsOf(start.ids, shop);
      && (p.scan.None? ==>
            && WholeScan(p.acknowledged, start.scan, start.window)
            && (RecordsOf(p.acknowledged) == facts <==> !DropsAny(start, steps)))
      && (p.scan.Some? ==>
            && FullPages(p.acknowledged, start.scan, start.window)
            && (!DropsAny(start, steps) ==> RecordsOf(p.acknowledged) <= facts))
      && 100 * |p.acknowledged| <= |facts| + 100
  {
    hide FullPages, FactsOf;
    AlwaysPaged(start, steps, shop);
    var pages := After(start, steps).acknowledged;
    if After(start, steps).scan.Some? {
      FullPagesCount(pages, start.scan, start.window);
    } else {
      assert WholeScan(pages, start.scan, start.window);
      FullPagesCount(pages[..|pages| - 1], start.scan, start.window);
    }
  }

  /**
   When reading an order throws, the records that the page had gathered are lost: the saved scan has moved past their
   orders and kept none of them. Nothing is lost exactly when nothing had been gathered.
   */
  lemma ThrowLosesGathered(s: Scan, extract: Extraction, requestId: Uuid, now: Time, shop: Shop)
    requires Agrees(s, extract, shop) && s.pending.None? && Fill(extract, s.ids, s.offset, s.carry).threw
    ensures var t, gathered := Prepared(s, extract, requestId, now), Fill(extract, s.ids, s.offset, s.carry).records;
      && t.pending.None? && t.attempt == s.attempt + 1
      && Remaining(s, shop) == gathered + Remaining(t, shop)
      && (Remaining(t, shop) == Remaining(s, shop) <==> gathered == [])
  {
    var f := Fill(extract, s.ids, s.offset, s.carry);
    FillFinishes(extract, s.ids, s.offset, s.carry);
    FillGathers(extract, s.ids, s.offset, s.carry, shop);
    assert [] + s.carry == s.carry;
    assert [] + [] + FactsOf(s.ids[f.offset..], shop) == FactsOf(s.ids[f.offset..], shop);
  }

  // ----- what the pages read -----

  /** Where reading stops when the next page is filled. */
  function ReadTo(s: Scan, extract: Extraction): nat { Fill(extract, s.ids, s.offset, s.carry).offset }

  function WithPage(s: Scan, extract: Extraction, shop: Shop): Shop {
    if s.pending.Some? then shop
    else
      (id: OrderId) =>
        if id in s.ids[s.offset..ReadTo(s, extract)] && extract(id).Some? then extract(id).value else shop(id)
  }

  /** Each order as the scan found it when it read it. */
  function AsRead(start: Scan, steps: seq<Step>): Shop {
    if steps == [] then _ => []
    else
      var init, step := steps[..|steps| - 1], steps[|steps| - 1];
      if step.Prepare? && After(start, init).scan.Some?
      then WithPage(After(start, init).scan.value, step.extract, AsRead(start, init))
      else AsRead(start, init)
  }

  lemma MovedOn(p: Progress, step: Step)
    requires p.scan.Some? && Moved(p, step).scan.Some?
    ensures var s, t := p.scan.value, Moved(p, step).scan.value;
      && t.ids == s.ids && s.offset <= t.offset
      && (step.Prepare? && s.pending.None? ==> t.offset == ReadTo(s, step.extract))
  {
  }

  /** A scan does not come back to what it has read. */
  lemma {:induction false} ReadBefore(start: Scan, steps: seq<Step>, i: nat)
    requires i < |steps| && steps[i].Prepare? && After(start, steps).scan.Some?
    ensures var p, s := After(start, steps[..i]), After(start, steps).scan.value;
      p.scan.Some? && p.scan.value.pending.None? ==>
        p.scan.value.ids == s.ids && ReadTo(p.scan.value, steps[i].extract) <= s.offset
  {
    hide Moved, ReadTo;
    var init := steps[..|steps| - 1];
    assert init[..|init|] == init;
    StillRuns(start, init, steps[|steps| - 1]);
    MovedOn(After(start, init), steps[|steps| - 1]);
    if i < |init| {
      assert init[..i] == steps[..i];
      ReadBefore(start, init, i);
    }
  }

  lemma StillRuns(start: Scan, steps: seq<Step>, step: Step)
    requires Moved(After(start, steps), step).scan.Some?
    ensures After(start, steps).scan.Some?
  {
  }

  lemma AgreesWithPage(s: Scan, extract: Extraction, shop: Shop)
    requires Distinct(s.ids)
    ensures Agrees(s, extract, WithPage(s, extract, shop))
  {
    FillFinishes(extract, s.ids, s.offset, s.carry);
    if s.pending.None? {
      forall i | s.offset <= i < ReadTo(s, extract)
        ensures extract(s.ids[i]) == Some(WithPage(s, extract, shop)(s.ids[i]))
      {
        assert s.ids[s.offset..ReadTo(s, extract)][i - s.offset] == s.ids[i];
      }
    }
  }

  lemma StillAgrees(earlier: Scan, past: Extraction, s: Scan, extract: Extraction, shop: Shop)
    requires Distinct(s.ids) && Agrees(earlier, past, shop)
    requires earlier.pending.None? ==> earlier.ids == s.ids && ReadTo(earlier, past) <= s.offset
    ensures Agrees(earlier, past, WithPage(s, extract, shop))
  {
    if earlier.pending.None? {
      forall i | earlier.offset <= i < ReadTo(earlier, past)
        ensures WithPage(s, extract, shop)(s.ids[i]) == shop(s.ids[i])
      {
        assert s.ids[i] !in s.ids[s.offset..];
      }
    }
  }

  /**
   Orders may change while they are scanned: as no order is read twice, what the pages read is always the contents of
   one shop.
   */
  lemma {:induction false} ShopWasRead(start: Scan, steps: seq<Step>)
    requires Distinct(start.ids)
    ensures ReadsShop(start, steps, AsRead(start, steps))
  {
    if steps != [] {
      hide Agrees, WithPage, Moved, ReadTo, Distinct;
      var init, last := steps[..|steps| - 1], steps[|steps| - 1];
      ShopWasRead(start, init);
      var p, shop := After(start, init), AsRead(start, init);
      forall i | 0 <= i < |steps| && steps[i].Prepare?
        ensures var q := After(start, steps[..i]);
          q.scan.Some? ==> Agrees(q.scan.value, steps[i].extract, AsRead(start, steps))
      {
        if p.scan.Some? { SameIds(start, init); }
        if i < |init| {
          assert init[..i] == steps[..i] && init[i] == steps[i];
          var q := After(start, steps[..i]);
          if q.scan.Some? && last.Prepare? && p.scan.Some? {
            ReadBefore(start, init, i);
            StillAgrees(q.scan.value, steps[i].extract, p.scan.value, last.extract, shop);
          }
        } else if p.scan.Some? {
          AgreesWithPage(p.scan.value, last.extract, shop);
        }
      }
    }
  }

  lemma {:induction false} SameIds(start: Scan, steps: seq<Step>)
    requires After(start, steps).scan.Some?
    ensures After(start, steps).scan.value.ids == start.ids
  {
    if steps != [] { SameIds(start, steps[..|steps| - 1]); }
  }

  // ----- termination -----

  function Reading(shop: Shop): Extraction { (id: OrderId) => Some(shop(id)) }

  /** The answer that a server gives when it stores every record and, at the end, advances coverage. */
  function Stored(e: Envelope): Ack {
    Ack(e.requestId, seq(|e.content.records|, i => RecordResult("", "", StatusAccepted)), e.content.finalPage, 0)
  }

  /** The scan after n pages, each prepared and stored. */
  function AfterRounds(s: Scan, shop: Shop, requestId: Uuid, now: Time, n: nat): Option<Scan>
    decreases n
  {
    if n == 0 then Some(s)
    else
      var t := Prepared(s, Reading(shop), requestId, now);
      if t.pending.None? then Some(t)
      else
        match Settled(t, Some(Stored(t.pending.value)))
        case None => None
        case Some(next) => AfterRounds(next, shop, requestId, now, n - 1)
  }

  /** Paging ends, even when one order fills several pages and others have no facts at all. */
  lemma {:induction false} PagingEnds(s: Scan, shop: Shop, requestId: Uuid, now: Time, n: nat)
    requires PendingSound(s) && |Remaining(s, shop)| < PAGE_SIZE * n
    ensures AfterRounds(s, shop, requestId, now, n).None?
    decreases n
  {
    hide FactsOf;
    var t := Prepared(s, Reading(shop), requestId, now);
    FillFinishes(Reading(shop), s.ids, s.offset, s.carry);
    PreparedKeepsRemaining(s, Reading(shop), requestId, now, shop);
    var e := t.pending.value;
    assert Completes(Some(Stored(e)), e);
    if !e.content.finalPage {
      PagingEnds(t.(pending := None, page := t.page + 1, attempt := 0), shop, requestId, now, n - 1);
    }
  }
}
