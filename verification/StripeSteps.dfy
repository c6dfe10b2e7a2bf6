/** Single steps of the scan worker, said without its functions: windows, schedules, retries and credentials. */
module StripeSteps {
  import opened Wrappers
  import opened Domain
  import opened Intervals
  import opened StripeWorker
  import opened StripeRuns

  // ----- new scans -----

  /**
   A poll of an active connector without a pending scan starts one, up to half a minute ago. A repair looks at thirty
   days, and so does the first poll; any other begins half an hour before what is covered ends, but not earlier.
   */
  lemma PollWindow(s: State, repair: bool, id: ScanId, now: Time)
    requires s.connector.status == Active && id !in s.scans
    requires forall i :: i in s.scans ==> s.scans[i].status != ScanPending
    ensures Polled(s, repair, id, now).Ok? && id in Polled(s, repair, id, now).value.scans
    ensures var scan, covered := Polled(s, repair, id, now).value.scans[id], s.payments.covered;
      && scan.window.through == now - 30
      && (repair || covered.None? ==> scan.window.through - scan.window.from == 30 * 86400)
      && (!repair && covered.Some? ==>
            && (scan.window.from == covered.value.through - 1800 || scan.window.from == now - 30 - 30 * 86400)
            && scan.window.from >= covered.value.through - 1800 && scan.window.from >= now - 30 - 30 * 86400)
      && scan.status == ScanPending && scan.phase == 0 && scan.pageCount == 0 && scan.providerCursor == ""
      && scan.repair == repair
  {
  }

  // ----- one page -----

  /** The pages of a listing move on: more rows follow a row that is not the one resumed after. */
  predicate MovesOn(scan: ScanRow, response: Response)
    requires response.Page?
  {
    response.hasMore ==> response.last.Some? && response.last.value != scan.providerCursor
  }

  predicate StartsWithin(covered: Option<Interval>, window: Interval) {
    covered.Some? ==> window.from <= covered.value.through
  }

  /**
   A page that was read and stored is turned unless the listing stalls, the scan has 10,000 pages, or it is the empty
   batch and the window does not reach what either cursor covers.
   */
  lemma PageTurnsIff(s: State, id: ScanId, now: Time, response: Response)
    requires IsPending(s.scans, id) && Readable(s.connector, now)
    requires response.Page? && StoredAll(s.entries, response.facts).Ok?
    ensures var scan, r := s.scans[id], Paged(s, id, now, response);
      && (r.Ok? <==>
            && scan.pageCount < 10000
            && (scan.phase < 4 ==> MovesOn(scan, response))
            && (scan.phase >= 4 && response.last.None? ==>
                  StartsWithin(s.payments.covered, scan.window) && StartsWithin(s.refunds.covered, scan.window)))
      && (r.Err? ==> r.error == Failure(false, 0))
  {
    hide Hull, StoredAll, Readable;
  }

  /** A turned page: the next phase, the next cursor, or the end of the scan with its coverage. */
  lemma TurnedPage(s: State, id: ScanId, now: Time, response: Response)
    requires IsPending(s.scans, id) && Paged(s, id, now, response).Ok?
    ensures response.Page? && id in Paged(s, id, now, response).value.scans
    ensures var scan, t := s.scans[id], Paged(s, id, now, response).value;
      var after, complete := t.scans[id], scan.phase >= 4 && response.last.None?;
      && t.scans == s.scans[id := after] && after.window == scan.window && after.repair == scan.repair
      && after.pageCount == scan.pageCount + 1
      && after.phase == (if scan.phase < 4 && !response.hasMore then scan.phase + 1 else scan.phase)
      && (after.status == ScanComplete <==> complete) && (!complete ==> after.status == ScanPending)
      && (scan.phase < 4 && !response.hasMore ==> after.providerCursor == "")
      && (!complete && !(scan.phase < 4 && !response.hasMore) ==> Some(after.providerCursor) == response.last)
      && (complete ==>
            && t.payments == CoverageRow(Some(Hull(s.payments.covered, scan.window)), Some(now), true)
            && t.refunds == CoverageRow(Some(Hull(s.refunds.covered, scan.window)), Some(now), true)
            && t.outbox == s.outbox)
      && (!complete ==>
            && t.payments == s.payments && t.refunds == s.refunds
            && (PageOf(id, after.pageCount) !in s.outbox ==>
                  t.outbox == s.outbox[PageOf(id, after.pageCount) := Row(ScanPage(id), RowPending, 0, now)]))
  {
    hide Hull, StoredAll, Readable;
  }

  // ----- the schedule -----

  /** Every five minutes one row is scheduled: once in 288 times, which is once a day, a repair. */
  lemma ScheduledRow(s: State, now: Time)
    requires s.orgActive && s.connector.status == Active && Periodic(now / 300) !in s.outbox
    ensures var t := Scheduled(s, now);
      && t == s.(outbox := t.outbox) && t.outbox.Keys == s.outbox.Keys + {Periodic(now / 300)}
      && (forall key :: key in s.outbox ==> t.outbox[key] == s.outbox[key])
      && t.outbox[Periodic(now / 300)]
        == Row(if now / 86400 * 288 == now / 300 then Repair else Poll, RowPending, 0, now)
  {
    BucketOfDay(now);
  }

  /** The first five minutes of a day are those whose number is divisible by 288. */
  lemma BucketOfDay(now: Time)
    ensures now / 300 % 288 == 0 <==> now / 86400 * 288 == now / 300
  {
    var bucket, day := now / 300, now / 86400;
    assert 300 * bucket <= now < 300 * bucket + 300;
    assert 86400 * day <= now < 86400 * day + 86400;
    assert 288 * day <= bucket < 288 * day + 288;
  }

  /** A webhook of an active connector leaves a receipt; a resource that can be read gets a row to read it. */
  lemma WebhookReceived(s: State, id: ReceiptId, supported: bool, now: Time)
    requires ReceiptOf(id) !in s.outbox
    ensures var t := Received(s, id, supported, now);
      && (!s.orgActive || s.connector.status != Active ==> t == s)
      && (s.orgActive && s.connector.status == Active && supported ==>
            t == s.(receipts := s.receipts[id := ReceiptPending],
                   outbox := s.outbox[ReceiptOf(id) := Row(ProcessReceipt(id), RowPending, 0, now)]))
      && (s.orgActive && s.connector.status == Active && !supported ==>
            t == s.(receipts := s.receipts[id := Ignored]))
  {
  }

  // ----- retries -----

  /** The delivery ran the row and failed. */
  predicate Fails(s: State, key: TaskKey, d: Delivery) {
    Deliverable(s, key, d.now) && FirstCommit(s, key, d).1.Some?
  }

  const BACKOFF := [1, 2, 4, 8, 16, 32, 64, 128]

  /**
   A failed row is dead when its failure is permanent or was its eighth; otherwise it waits at least as long as its
   backoff and as the provider asked, and no longer than the longer of them with the jitter.
   */
  lemma RetryWaits(s: State, key: TaskKey, d: Delivery)
    requires Fails(s, key, d) && s.outbox[key].attempts < 8
    ensures key in Delivered(s, key, d).outbox
    ensures var f, before, row := FirstCommit(s, key, d).1.value, s.outbox[key], Delivered(s, key, d).outbox[key];
      && row.attempts == before.attempts + 1 && row.task == before.task
      && (row.status == Dead <==> f.permanent || row.attempts == 8)
      && (row.status != Dead ==>
            && row.status == RowPending
            && row.availableAt >= d.later + f.retryAfter && row.availableAt >= d.later + BACKOFF[row.attempts]
            && (row.availableAt == d.later + f.retryAfter
                || row.availableAt == d.later + BACKOFF[row.attempts] + d.jitter))
  {
    hide FirstCommit, FailScan, FailPending, FailReceipt, KnowsConnector;
    var n := s.outbox[key].attempts + 1;
    if n < 8 { Powers(n); }
  }

  lemma Powers(n: nat)
    requires n < 8
    ensures Pow2(n) == BACKOFF[n] < 900
  {
    assert Pow2(0) == 1 && Pow2(1) == 2 && Pow2(2) == 4 && Pow2(3) == 8;
    assert Pow2(4) == 16 && Pow2(5) == 32 && Pow2(6) == 64 && Pow2(7) == 128;
  }

  /** A delivery that does not fail marks its row done; a row that is done, dead, or not yet due is left alone. */
  lemma DeliveryEnds(s: State, key: TaskKey, d: Delivery)
    ensures !Deliverable(s, key, d.now) ==> Delivered(s, key, d) == s
    ensures Deliverable(s, key, d.now) && !Fails(s, key, d) ==>
              key in Delivered(s, key, d).outbox && Delivered(s, key, d).outbox[key].status == Done
    ensures Deliverable(s, key, d.now) <==>
              && key in s.outbox && s.outbox[key].availableAt <= d.now
              && s.outbox[key].status != Done && s.outbox[key].status != Dead
  {
    hide Handled, Refreshed, SecondCommit;
  }

  // ----- failures -----

  /**
   What the second transaction leaves. A permanent failure suspends the connector, clears its credentials and fails its
   pending scan; a dead row fails its own scan or receipt, and takes the completeness of both cursors.
   */
  lemma FailureRecorded(s: State, key: TaskKey, f: Failure, now: Time, jitter: nat)
    requires KeysSound(s) && ScansSound(s) && key in s.outbox
    ensures var t, task := SecondCommit(s, key, f, now, jitter), s.outbox[key].task;
      var dead := f.permanent || s.outbox[key].attempts >= 7;
      && t.entries == s.entries && t.orgActive == s.orgActive
      && t.connector == (if f.permanent then Connector(Suspended, None, s.connector.expiresAt) else s.connector)
      && t.payments == (if dead then s.payments.(complete := false) else s.payments)
      && t.refunds == (if dead then s.refunds.(complete := false) else s.refunds)
      && t.scans.Keys == s.scans.Keys && t.receipts.Keys == s.receipts.Keys
      && (forall id :: id in s.scans ==>
            t.scans[id] == (if s.scans[id].status == ScanPending && (f.permanent || (dead && task == ScanPage(id)))
                            then s.scans[id].(status := ScanFailed) else s.scans[id]))
      && (forall id :: id in s.receipts ==>
            t.receipts[id] == (if dead && task == ProcessReceipt(id) then ReceiptFailed else s.receipts[id]))
  {
    hide Delay;
    assert RowSound(s.scans, s.receipts, key, s.outbox[key]);
  }

  // ----- credentials -----

  /** A pair is exchanged only when its time is over, and the new one is good for 55 minutes. */
  lemma ExchangeMeans(c: Connector, now: Time, exchange: Exchange)
    requires c.status == Active && c.tokens.Some?
    ensures var due, r := c.expiresAt.None? || c.expiresAt.value <= now, Refreshed(c, now, exchange);
      && (!due ==> r == Ok(c))
      && (due ==> (r.Ok? <==> exchange.Issued? && exchange.kept))
      && (due && r.Ok? ==> r.value == Connector(Active, Some(exchange.tokens), Some(now + 3300)))
      && (r.Err? ==> r.error.permanent)
  {
  }
}
