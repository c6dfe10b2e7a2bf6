/** Properties of the scan worker over every run of deliveries, webhooks, scheduling, disconnection and deactivation. */
module StripeRuns {
  import opened Wrappers
  import opened Domain
  import opened Intervals
  import opened StripeWorker

  /** A page that a scan turned, and the cursor it was asked for with. */
  datatype Turn = Turn(asked: string, response: Response)

  /**
   `issued` is the pair that the provider issued last, `clock` the latest time of a step, and `trails` holds the pages
   that each scan has turned.
   */
  datatype World = World(state: State, issued: Tokens, clock: Time, trails: map<ScanId, seq<Turn>>)

  datatype Step =
    | Deliver(key: TaskKey, d: Delivery)
    | Dispatch(key: TaskKey)
    | Schedule(now: Time)
    | Webhook(receipt: ReceiptId, supported: bool, now: Time)
    | Disconnect
    | Deactivate

  function Start(tokens: Tokens, now: Time): World { World(Connected(tokens, now), tokens, now, map[]) }

  /** Identifiers of new scans are new, and so are those of new receipts. */
  predicate Enabled(w: World, step: Step) {
    && (step.Deliver? ==> step.d.newScan !in w.state.scans)
    && (step.Webhook? ==> step.receipt !in w.state.receipts)
  }

  /** The delivery runs a task that reads the provider: a page of a scan under way, or an unsettled receipt. */
  predicate RunsWork(s: State, key: TaskKey, d: Delivery) {
    Deliverable(s, key, d.now) && s.orgActive && UsesCredentials(s, s.outbox[key].task)
  }

  function IssuedAfter(w: World, key: TaskKey, d: Delivery): Tokens {
    if RunsWork(w.state, key, d) && NeedsExchange(w.state.connector, d.now) && !d.exchange.Refused?
    then d.exchange.tokens else w.issued
  }

  function TrailOf(trails: map<ScanId, seq<Turn>>, id: ScanId): seq<Turn> {
    if id in trails then trails[id] else []
  }

  /** The page was turned: its scan counts one more. */
  predicate Turns(s: State, key: TaskKey, d: Delivery) {
    && RunsWork(s, key, d) && s.outbox[key].task.ScanPage?
    && var id := s.outbox[key].task.scan;
       var t := Delivered(s, key, d);
       id in t.scans && t.scans[id].pageCount > s.scans[id].pageCount
  }

  function TrailsAfter(w: World, key: TaskKey, d: Delivery): map<ScanId, seq<Turn>> {
    if Turns(w.state, key, d) then
      var id := w.state.outbox[key].task.scan;
      w.trails[id := TrailOf(w.trails, id) + [Turn(w.state.scans[id].providerCursor, d.response)]]
    else w.trails
  }

  /** A webhook of an active connector is recorded once; supported resources are to be fetched. */
  function Received(s: State, id: ReceiptId, supported: bool, now: Time): State {
    if !s.orgActive || s.connector.status != Active then s
    else if supported then
      s.(receipts := s.receipts[id := ReceiptPending],
        outbox := Enqueued(s.outbox, ReceiptOf(id), ProcessReceipt(id), now))
    else s.(receipts := s.receipts[id := Ignored])
  }

  function Scheduled(s: State, now: Time): State {
    if s.orgActive && s.connector.status == Active then
      var bucket := now / 300;
      s.(outbox := Enqueued(s.outbox, Periodic(bucket), if bucket % 288 == 0 then Repair else Poll, now))
    else s
  }

  function Next(w: World, step: Step): World {
    if !Enabled(w, step) then w
    else
      match step
      case Deliver(key, d) =>
        World(Delivered(w.state, key, d), IssuedAfter(w, key, d), d.later, TrailsAfter(w, key, d))
      case Dispatch(key) =>
        if key in w.state.outbox && Live(w.state.outbox[key]) then
          w.(state := w.state.(outbox := w.state.outbox[key := w.state.outbox[key].(status := Queued)]))
        else w
      case Schedule(now) => w.(state := Scheduled(w.state, now), clock := now)
      case Webhook(id, supported, now) => w.(state := Received(w.state, id, supported, now), clock := now)
      case Disconnect =>
        w.(state := w.state.(connector := Connector(Disconnected, None, None),
             payments := w.state.payments.(complete := false), refunds := w.state.refunds.(complete := false)))
      case Deactivate =>
        var c := w.state.connector.(status := Disconnected, tokens := None);
        w.(state := w.state.(orgActive := false, connector := c))
  }

  function After(start: World, steps: seq<Step>): World {
    if steps == [] then start else Next(After(start, steps[..|steps| - 1]), steps[|steps| - 1])
  }

  // ----- one live row for each pending scan -----

  /** The row is what its key says, and a live one has attempts left. */
  predicate RowSound(
      scans: map<ScanId, ScanRow>, receipts: map<ReceiptId, ReceiptStatus>, key: TaskKey, row: Row)
  {
    && (Live(row) ==> row.attempts < MAX_ATTEMPTS)
    && match key
       case Periodic(_) => row.task == Poll || row.task == Repair
       case ReceiptOf(id) => row.task == ProcessReceipt(id) && id in receipts
       case PageOf(id, n) => row.task == ScanPage(id) && id in scans && n <= scans[id].pageCount
  }

  ghost predicate KeysSound(s: State) {
    forall key :: key in s.outbox ==> RowSound(s.scans, s.receipts, key, s.outbox[key])
  }

  predicate IsPending(scans: map<ScanId, ScanRow>, id: ScanId) { id in scans && scans[id].status == ScanPending }

  predicate IsLive(outbox: map<TaskKey, Row>, key: TaskKey) { key in outbox && Live(outbox[key]) }

  ghost predicate ScansSound(s: State) {
    && (forall id :: id in s.scans ==> s.scans[id].pageCount <= PAGE_LIMIT && s.scans[id].phase <= PHASES)
    && (forall i, j :: IsPending(s.scans, i) && IsPending(s.scans, j) ==> i == j)
  }

  /** A pending scan has a live row at its page count, and any live page row is at its scan's page count. */
  ghost predicate LivePages(s: State) {
    s.orgActive ==>
      && (forall id :: IsPending(s.scans, id) ==> IsLive(s.outbox, PageOf(id, s.scans[id].pageCount)))
      && (forall id, n :: IsLive(s.outbox, PageOf(id, n)) ==> id in s.scans && s.scans[id].pageCount == n)
  }

  ghost predicate Queueing(s: State) { KeysSound(s) && ScansSound(s) && LivePages(s) }

  lemma NoNewPending(s: State, t: State)
    requires ScansSound(s)
    requires forall i :: i in t.scans ==> t.scans[i].pageCount <= PAGE_LIMIT && t.scans[i].phase <= PHASES
    requires forall i :: i in t.scans && t.scans[i].status == ScanPending ==> IsPending(s.scans, i)
    ensures ScansSound(t)
  {
  }

  lemma PolledQueueing(s: State, repair: bool, id: ScanId, now: Time)
    requires Queueing(s) && id !in s.scans && Polled(s, repair, id, now).Ok?
    ensures Queueing(Polled(s, repair, id, now).value)
  {
    hide WindowFor;
    assert PageOf(id, 0) !in s.outbox;
  }

  /** The delivered row is that of the scan's current page, and there is no row of the next page yet. */
  lemma RowOfPage(s: State, key: TaskKey, id: ScanId)
    requires Queueing(s) && s.orgActive && IsLive(s.outbox, key) && s.outbox[key].task == ScanPage(id)
    ensures id in s.scans && key == PageOf(id, s.scans[id].pageCount)
    ensures PageOf(id, s.scans[id].pageCount + 1) !in s.outbox
    ensures IsPending(s.scans, id) ==> forall i :: i != id ==> !IsPending(s.scans, i)
  {
    assert IsLive(s.outbox, PageOf(key.scan, key.pageCount));
  }

  lemma PagedKeys(s: State, key: TaskKey, id: ScanId, now: Time, response: Response)
    requires KeysSound(s) && ScansSound(s) && key in s.outbox && Paged(s, id, now, response).Ok?
    ensures KeysSound(Finished(Paged(s, id, now, response).value, key))
    ensures ScansSound(Finished(Paged(s, id, now, response).value, key))
  {
    hide Hull, Fetched, MayExtend, Turned, KeysSound, ScansSound;
    var paged := Paged(s, id, now, response).value;
    if IsPending(s.scans, id) {
      TurnedShape(s.scans[id], response.last, response.hasMore);
      TurnedKeys(s, paged, id, now);
      TurnedScans(s, paged, id);
    }
    FinishedKeys(paged, key);
  }

  lemma TurnedKeys(s: State, t: State, id: ScanId, now: Time)
    requires KeysSound(s) && IsPending(s.scans, id) && id in t.scans && t.scans == s.scans[id := t.scans[id]]
    requires t.scans[id].pageCount == s.scans[id].pageCount + 1 && t.receipts == s.receipts
    requires t.outbox == s.outbox
      || t.outbox == Enqueued(s.outbox, PageOf(id, t.scans[id].pageCount), ScanPage(id), now)
    ensures KeysSound(t)
  {
  }

  lemma TurnedScans(s: State, t: State, id: ScanId)
    requires ScansSound(s) && IsPending(s.scans, id) && id in t.scans && t.scans == s.scans[id := t.scans[id]]
    requires t.scans[id].pageCount <= PAGE_LIMIT && (s.scans[id].phase <= PHASES ==> t.scans[id].phase <= PHASES)
    ensures ScansSound(t)
  {
    NoNewPending(s, t);
  }

  lemma FinishedKeys(s: State, key: TaskKey)
    requires KeysSound(s) && ScansSound(s) && key in s.outbox
    ensures KeysSound(Finished(s, key)) && ScansSound(Finished(s, key))
  {
  }

  /** Marking the delivered row done: after a page, that is the row the scan has left behind. */
  lemma PagedQueueing(s: State, key: TaskKey, id: ScanId, now: Time, response: Response)
    requires Queueing(s) && s.orgActive && IsLive(s.outbox, key) && s.outbox[key].task == ScanPage(id)
    requires Paged(s, id, now, response).Ok?
    ensures Queueing(Finished(Paged(s, id, now, response).value, key))
  {
    hide Hull, Fetched, MayExtend, Turned, KeysSound, ScansSound, LivePages;
    RowOfPage(s, key, id);
    PagedKeys(s, key, id, now, response);
    if IsPending(s.scans, id) {
      TurnedShape(s.scans[id], response.last, response.hasMore);
      PagedLive(s, Finished(Paged(s, id, now, response).value, key), key, id);
    } else {
      DoneLive(s, key, id);
    }
  }

  lemma DoneLive(s: State, key: TaskKey, id: ScanId)
    requires LivePages(s) && key in s.outbox && id in s.scans && !IsPending(s.scans, id)
    requires key == PageOf(id, s.scans[id].pageCount)
    ensures LivePages(Finished(s, key))
  {
    forall i, n | IsLive(Finished(s, key).outbox, PageOf(i, n)) ensures IsLive(s.outbox, PageOf(i, n)) {
    }
  }

  /** One row is done; the scan it was of has ended, or has a row of its next page. */
  lemma PagedLive(s: State, t: State, key: TaskKey, id: ScanId)
    requires id in s.scans && id in t.scans && t.scans == s.scans[id := t.scans[id]] && t.orgActive
    requires key == PageOf(id, s.scans[id].pageCount) && key in t.outbox && !Live(t.outbox[key])
    requires forall i :: i != id ==> !IsPending(s.scans, i)
    requires LivePages(s) && s.orgActive && t.scans[id].pageCount == s.scans[id].pageCount + 1
    requires var next, rest := PageOf(id, s.scans[id].pageCount + 1), s.outbox[key := t.outbox[key]];
      && next !in s.outbox
      && (if IsPending(t.scans, id) then
            next in t.outbox && Live(t.outbox[next]) && t.outbox == rest[next := t.outbox[next]]
          else t.outbox == rest)
    ensures LivePages(t)
  {
    forall i, n | IsLive(t.outbox, PageOf(i, n)) ensures i in t.scans && t.scans[i].pageCount == n {
      if PageOf(i, n) in s.outbox { assert IsLive(s.outbox, PageOf(i, n)); }
    }
    forall i | IsPending(t.scans, i) ensures IsLive(t.outbox, PageOf(i, t.scans[i].pageCount)) {
      assert i != id ==> !IsPending(s.scans, i);
    }
  }

  lemma TurnedShape(scan: ScanRow, last: Option<string>, hasMore: bool)
    requires scan.status == ScanPending
    ensures var t := Turned(scan, last, hasMore);
      t.Some? ==>
        && (scan.phase <= PHASES ==> t.value.phase <= PHASES)
        && t.value.status != ScanFailed && t.value.window == scan.window
  {
  }

  lemma FinishedQueueing(s: State, key: TaskKey)
    requires Queueing(s) && key in s.outbox && !s.outbox[key].task.ScanPage?
    ensures Queueing(Finished(s, key))
  {
    var t := Finished(s, key);
    forall i, n ensures IsLive(t.outbox, PageOf(i, n)) == IsLive(s.outbox, PageOf(i, n)) {
      assert PageOf(i, n) != key;
    }
  }

  lemma RecordedKeys(s: State, key: TaskKey, f: Failure, now: Time, jitter: nat)
    requires KeysSound(s) && ScansSound(s) && IsLive(s.outbox, key)
    ensures var t := SecondCommit(s, key, f, now, jitter);
      && KeysSound(t) && ScansSound(t)
      && (forall i :: IsPending(t.scans, i) ==> IsPending(s.scans, i))
      && (forall i :: i in s.scans ==> i in t.scans && t.scans[i].pageCount == s.scans[i].pageCount)
  {
    hide Delay, KnowsConnector;
    var t := SecondCommit(s, key, f, now, jitter);
    forall i | IsPending(t.scans, i) ensures IsPending(s.scans, i) {}
    NoNewPending(s, t);
  }

  lemma RecordedLive(s: State, t: State, key: TaskKey)
    requires LivePages(s) && s.orgActive && key in s.outbox && key in t.outbox
    requires IsLive(s.outbox, key) && t.outbox == s.outbox[key := t.outbox[key]]
    requires forall i :: IsPending(t.scans, i) ==> IsPending(s.scans, i)
    requires forall i :: i in s.scans ==> i in t.scans && t.scans[i].pageCount == s.scans[i].pageCount
    requires key.PageOf? ==> Live(t.outbox[key]) || !IsPending(t.scans, key.scan)
    ensures LivePages(t)
  {
    forall i, n | IsLive(t.outbox, PageOf(i, n)) ensures IsLive(s.outbox, PageOf(i, n)) {}
    forall i | IsPending(t.scans, i) ensures IsLive(t.outbox, PageOf(i, t.scans[i].pageCount)) {
      assert IsPending(s.scans, i);
      assert IsLive(s.outbox, PageOf(i, s.scans[i].pageCount));
    }
  }

  lemma DeadEndsScan(s: State, key: TaskKey, f: Failure, now: Time, jitter: nat)
    requires KeysSound(s) && key.PageOf? && key in s.outbox
    ensures var t := SecondCommit(s, key, f, now, jitter);
      key in t.outbox && (Live(t.outbox[key]) || !IsPending(t.scans, key.scan))
  {
    hide Delay;
  }

  lemma RecordedQueueing(s: State, key: TaskKey, f: Failure, now: Time, jitter: nat)
    requires Queueing(s) && s.orgActive && IsLive(s.outbox, key)
    ensures Queueing(SecondCommit(s, key, f, now, jitter))
  {
    hide Delay, KnowsConnector, KeysSound, ScansSound, LivePages, FailScan, FailPending, FailReceipt;
    RecordedKeys(s, key, f, now, jitter);
    if key.PageOf? { DeadEndsScan(s, key, f, now, jitter); }
    RecordedLive(s, SecondCommit(s, key, f, now, jitter), key);
  }

  lemma DeliveredQueueing(s: State, key: TaskKey, d: Delivery)
    requires Queueing(s) && d.newScan !in s.scans
    ensures Queueing(Delivered(s, key, d))
  {
    if Deliverable(s, key, d.now) {
      hide Queueing, Handled, Refreshed;
      FirstQueueing(s, key, d);
      var (t, failure) := FirstCommit(s, key, d);
      if failure.Some? {
        RecordedQueueing(t, key, failure.value, d.later, d.jitter);
      }
    }
  }

  lemma RestQueueing(s: State, t: State)
    requires Queueing(s) && t.scans == s.scans && t.receipts == s.receipts && t.outbox == s.outbox
    requires t.orgActive ==> s.orgActive
    ensures Queueing(t)
  {
  }

  lemma ProcessedQueueing(s: State, key: TaskKey, id: ReceiptId, now: Time, response: Response)
    requires Queueing(s) && key in s.outbox && s.outbox[key].task == ProcessReceipt(id)
    requires Processed(s, id, now, response).Ok?
    ensures Queueing(Finished(Processed(s, id, now, response).value, key))
  {
    hide Fetched;
    FinishedQueueing(Processed(s, id, now, response).value, key);
  }

  lemma FirstQueueing(s: State, key: TaskKey, d: Delivery)
    requires Queueing(s) && IsLive(s.outbox, key) && d.newScan !in s.scans
    ensures var (t, failure) := FirstCommit(s, key, d);
      Queueing(t) && (failure.Some? ==> t.orgActive && IsLive(t.outbox, key))
  {
    hide Polled, Paged, Processed, Refreshed;
    var task := s.outbox[key].task;
    var c := if UsesCredentials(s, task) then Refreshed(s.connector, d.now, d.exchange) else Ok(s.connector);
    if s.orgActive && c.Ok? {
      var ready := s.(connector := c.value);
      RestQueueing(s, ready);
      match task {
        case ScanPage(id) =>
          if Paged(ready, id, d.later, d.response).Ok? { PagedQueueing(ready, key, id, d.later, d.response); }
        case ProcessReceipt(id) =>
          if Processed(ready, id, d.later, d.response).Ok? { ProcessedQueueing(ready, key, id, d.later, d.response); }
        case _ =>
          var polled := Polled(ready, task.Repair?, d.newScan, d.later);
          if polled.Ok? {
            PolledQueueing(ready, task.Repair?, d.newScan, d.later);
            FinishedQueueing(polled.value, key);
          }
      }
    }
  }

  /** A row that is not of a page makes no difference. */
  lemma EnqueuedQueueing(s: State, t: State, key: TaskKey, now: Time)
    requires Queueing(s) && t.scans == s.scans && t.orgActive == s.orgActive && !key.PageOf?
    requires s.receipts.Keys <= t.receipts.Keys
    requires t.outbox == s.outbox
      || exists task :: t.outbox == Enqueued(s.outbox, key, task, now)
           && RowSound(t.scans, t.receipts, key, Row(task, RowPending, 0, now))
    ensures Queueing(t)
  {
    forall i, n ensures IsLive(t.outbox, PageOf(i, n)) == IsLive(s.outbox, PageOf(i, n)) {}
  }

  lemma DispatchQueueing(s: State, t: State, key: TaskKey)
    requires Queueing(s) && IsLive(s.outbox, key)
    requires t == s.(outbox := s.outbox[key := s.outbox[key].(status := Queued)])
    ensures Queueing(t)
  {
    forall k ensures IsLive(t.outbox, k) == IsLive(s.outbox, k) {}
  }

  lemma ScheduleQueueing(s: State, now: Time)
    requires Queueing(s)
    ensures Queueing(Scheduled(s, now))
  {
    hide Queueing;
    EnqueuedQueueing(s, Scheduled(s, now), Periodic(now / 300), now);
  }

  lemma WebhookQueueing(s: State, id: ReceiptId, supported: bool, now: Time)
    requires Queueing(s)
    ensures Queueing(Received(s, id, supported, now))
  {
    hide Queueing;
    EnqueuedQueueing(s, Received(s, id, supported, now), ReceiptOf(id), now);
  }

  lemma NextQueueing(w: World, step: Step)
    requires Queueing(w.state)
    ensures Queueing(Next(w, step).state)
  {
    if Enabled(w, step) {
      hide Queueing, Scheduled, Received, Delivered;
      match step {
        case Deliver(key, d) => DeliveredQueueing(w.state, key, d);
        case Dispatch(key) =>
          if IsLive(w.state.outbox, key) { DispatchQueueing(w.state, Next(w, step).state, key); }
        case Webhook(id, supported, now) => WebhookQueueing(w.state, id, supported, now);
        case Schedule(now) => ScheduleQueueing(w.state, now);
        case _ => RestQueueing(w.state, Next(w, step).state);
      }
    }
  }

  lemma {:induction false} AlwaysQueueing(tokens: Tokens, now: Time, steps: seq<Step>)
    ensures Queueing(After(Start(tokens, now), steps).state)
  {
    if steps != [] {
      hide Queueing, Next;
      AlwaysQueueing(tokens, now, steps[..|steps| - 1]);
      NextQueueing(After(Start(tokens, now), steps[..|steps| - 1]), steps[|steps| - 1]);
    } else {
      NothingQueued(tokens, now);
    }
  }

  lemma NothingQueued(tokens: Tokens, now: Time)
    ensures Queueing(Start(tokens, now).state)
  {
  }

  /**
   In an active organization every pending scan has exactly one live row, keyed by its current page count, whatever
   succeeded, failed, was retried, dead-lettered or suspended before.
   */
  lemma OneLiveRowPerScan(tokens: Tokens, now: Time, steps: seq<Step>, id: ScanId)
    requires var s := After(Start(tokens, now), steps).state; s.orgActive && IsPending(s.scans, id)
    ensures var s := After(Start(tokens, now), steps).state;
      && PageOf(id, s.scans[id].pageCount) in s.outbox
      && forall key :: key in s.outbox ==>
           (Live(s.outbox[key]) && s.outbox[key].task == ScanPage(id) <==> key == PageOf(id, s.scans[id].pageCount))
  {
    AlwaysQueueing(tokens, now, steps);
    var s := After(Start(tokens, now), steps).state;
    assert IsLive(s.outbox, PageOf(id, s.scans[id].pageCount));
    forall key | key in s.outbox && Live(s.outbox[key]) && s.outbox[key].task == ScanPage(id)
      ensures key == PageOf(id, s.scans[id].pageCount)
    {
      assert IsLive(s.outbox, PageOf(key.scan, key.pageCount));
    }
  }

  /** The connector never has two pending scans. */
  lemma OnePendingScan(tokens: Tokens, now: Time, steps: seq<Step>, i: ScanId, j: ScanId)
    requires var scans := After(Start(tokens, now), steps).state.scans; IsPending(scans, i) && IsPending(scans, j)
    ensures i == j
  {
    AlwaysQueueing(tokens, now, steps);
  }

  // ----- what a delivery can do to a scan -----

  predicate TurnedTo(before: ScanRow, after: ScanRow, response: Response) {
    && before.status == ScanPending && response.Page?
    && Turned(before, response.last, response.hasMore).Some?
    && after == Turned(before, response.last, response.hasMore).value.(pageCount := before.pageCount + 1)
  }

  predicate SameOrFailed(before: ScanRow, after: ScanRow) {
    after == before || (before.status == ScanPending && after == before.(status := ScanFailed))
  }

  /** The scan turned a page in this delivery. */
  predicate TurnsPageOf(s: State, key: TaskKey, d: Delivery, id: ScanId) {
    Turns(s, key, d) && s.outbox[key].task.scan == id
  }

  /** A scan is unchanged, fails, turns one page or is new. */
  predicate StartsNew(scan: ScanRow) {
    scan.phase == 0 && scan.providerCursor == "" && scan.pageCount == 0 && scan.status == ScanPending
  }

  /** What one delivery leaves of a scan: it is unchanged, fails, turns one page or is new. */
  predicate Changes(s: State, key: TaskKey, d: Delivery, id: ScanId) {
    var t := Delivered(s, key, d);
    if id !in s.scans then id in t.scans ==> StartsNew(t.scans[id]) && !TurnsPageOf(s, key, d, id)
    else if id !in t.scans then false
    else if TurnsPageOf(s, key, d, id) then TurnedTo(s.scans[id], t.scans[id], d.response)
    else SameOrFailed(s.scans[id], t.scans[id])
  }

  lemma HandledScans(s: State, task: Task, d: Delivery, id: ScanId)
    requires d.newScan !in s.scans && Handled(s, task, d).Ok?
    ensures var t := Handled(s, task, d).value;
      && (id !in s.scans && id in t.scans ==> StartsNew(t.scans[id]))
      && (id in s.scans ==>
            && id in t.scans
            && (t.scans[id] == s.scans[id] || (task == ScanPage(id) && TurnedTo(s.scans[id], t.scans[id], d.response))))
  {
    hide Hull, MayExtend, Readable, WindowFor, Turned;
  }

  lemma ScanChanges(s: State, key: TaskKey, d: Delivery, id: ScanId)
    requires d.newScan !in s.scans
    ensures Changes(s, key, d, id)
  {
    hide Handled, Refreshed, Delay, Turned, Keeps;
    if Deliverable(s, key, d.now) {
      var task := s.outbox[key].task;
      var c := if UsesCredentials(s, task) then Refreshed(s.connector, d.now, d.exchange) else Ok(s.connector);
      if c.Ok? && Handled(s.(connector := c.value), task, d).Ok? {
        HandledScans(s.(connector := c.value), task, d, id);
      }
      TurnedCount(s, task, d);
    }
  }

  lemma TurnedCount(s: State, task: Task, d: Delivery)
    ensures task.ScanPage? && task.scan in s.scans && d.response.Page? ==>
              var turned := Turned(s.scans[task.scan], d.response.last, d.response.hasMore);
              turned.Some? ==> turned.value.pageCount == s.scans[task.scan].pageCount
  {
  }

  // ----- every scan leaves pending -----

  /** A delivery that works on the scan. */
  predicate WorksOn(w: World, step: Step, id: ScanId) {
    step.Deliver? && Enabled(w, step) && RunsWork(w.state, step.key, step.d)
    && w.state.outbox[step.key].task == ScanPage(id)
  }

  function Deliveries(start: World, steps: seq<Step>, id: ScanId): nat {
    if steps == [] then 0
    else
      Deliveries(start, steps[..|steps| - 1], id)
      + if WorksOn(After(start, steps[..|steps| - 1]), steps[|steps| - 1], id) then 1 else 0
  }

  function Attempts(s: State, id: ScanId): nat {
    if IsPending(s.scans, id) && PageOf(id, s.scans[id].pageCount) in s.outbox
    then s.outbox[PageOf(id, s.scans[id].pageCount)].attempts else 0
  }

  lemma RunsOnPending(s: State, key: TaskKey, d: Delivery, id: ScanId)
    requires RunsWork(s, key, d) && s.outbox[key].task == ScanPage(id)
    ensures IsPending(s.scans, id) && s.orgActive
    ensures Queueing(s) ==> Attempts(s, id) < MAX_ATTEMPTS
  {
    if Queueing(s) { assert IsLive(s.outbox, PageOf(id, s.scans[id].pageCount)); }
  }

  /**
   A delivery that works on a scan ends it, or turns its page and starts a new row, or uses up one of the eight
   attempts of its row: the pair of pages left and attempts left goes down.
   */
  lemma WorkMakesProgress(s: State, key: TaskKey, d: Delivery, id: ScanId)
    requires Queueing(s) && d.newScan !in s.scans && RunsWork(s, key, d) && s.outbox[key].task == ScanPage(id)
    ensures var t := Delivered(s, key, d);
      IsPending(t.scans, id) ==>
        && t.scans[id].pageCount <= PAGE_LIMIT && Attempts(t, id) < MAX_ATTEMPTS
        && ((t.scans[id].pageCount == s.scans[id].pageCount + 1 && Attempts(t, id) == 0)
            || (t.scans[id].pageCount == s.scans[id].pageCount && Attempts(t, id) == Attempts(s, id) + 1))
  {
    hide Delivered, Queueing, RunsWork, Turned;
    RunsOnPending(s, key, d, id);
    OrgStays(s, key, d);
    DeliveredQueueing(s, key, d);
    ScanChanges(s, key, d, id);
    PageRow(s, key, d, id);
    LiveRows(s, id);
    LiveRows(Delivered(s, key, d), id);
    TurnedCount(s, ScanPage(id), d);
  }

  /** A pending scan's row has attempts left. */
  lemma LiveRows(s: State, id: ScanId)
    requires Queueing(s)
    ensures s.orgActive && IsPending(s.scans, id) ==>
              PageOf(id, s.scans[id].pageCount) in s.outbox && Attempts(s, id) < MAX_ATTEMPTS
    ensures IsPending(s.scans, id) ==> s.scans[id].pageCount <= PAGE_LIMIT
  {
    if s.orgActive && IsPending(s.scans, id) { assert IsLive(s.outbox, PageOf(id, s.scans[id].pageCount)); }
  }

  lemma PagedRow(s: State, id: ScanId, now: Time, response: Response)
    requires IsPending(s.scans, id) && PageOf(id, s.scans[id].pageCount + 1) !in s.outbox
    requires Paged(s, id, now, response).Ok?
    ensures var t, n := Paged(s, id, now, response).value, s.scans[id].pageCount + 1;
      && id in t.scans && t.scans[id].pageCount == n
      && (IsPending(t.scans, id) ==> PageOf(id, n) in t.outbox && t.outbox[PageOf(id, n)].attempts == 0)
  {
    hide Fetched, MayExtend, Turned;
    TurnedShape(s.scans[id], response.last, response.hasMore);
  }

  lemma RecordedRow(s: State, key: TaskKey, f: Failure, now: Time, jitter: nat, id: ScanId)
    requires key in s.outbox && id in s.scans
    ensures var t := SecondCommit(s, key, f, now, jitter);
      && t.outbox.Keys == s.outbox.Keys && t.outbox[key].attempts == s.outbox[key].attempts + 1
      && id in t.scans && t.scans[id].pageCount == s.scans[id].pageCount
  {
    hide Delay, KnowsConnector;
  }

  /** What a delivery that works on a scan does to the rows of its pages. */
  lemma PageRow(s: State, key: TaskKey, d: Delivery, id: ScanId)
    requires Queueing(s) && RunsWork(s, key, d) && s.outbox[key].task == ScanPage(id)
    ensures var t, n := Delivered(s, key, d), s.scans[id].pageCount;
      && key == PageOf(id, n)
      && (IsPending(t.scans, id) && t.scans[id].pageCount == n ==>
            key in t.outbox && t.outbox[key].attempts == s.outbox[key].attempts + 1)
      && (IsPending(t.scans, id) && t.scans[id].pageCount == n + 1 ==>
            PageOf(id, n + 1) in t.outbox && t.outbox[PageOf(id, n + 1)].attempts == 0)
  {
    RowOfPage(s, key, id);
    hide Queueing, Paged, Refreshed, SecondCommit;
    var c := Refreshed(s.connector, d.now, d.exchange);
    if c.Ok? && Paged(s.(connector := c.value), id, d.later, d.response).Ok? {
      PagedRow(s.(connector := c.value), id, d.later, d.response);
    }
    var (t, failure) := FirstCommit(s, key, d);
    if failure.Some? { RecordedRow(t, key, failure.value, d.later, d.jitter, id); }
  }

  /** A delivery writes no row that was there before but its own. */
  lemma OtherRowsKept(s: State, key: TaskKey, d: Delivery)
    ensures var t := Delivered(s, key, d);
      forall k :: k in s.outbox && k != key ==> k in t.outbox && t.outbox[k] == s.outbox[k]
  {
    hide Handled, Refreshed, Delay;
  }

  lemma TurnsWorks(s: State, key: TaskKey, d: Delivery, id: ScanId)
    requires TurnsPageOf(s, key, d, id)
    ensures RunsWork(s, key, d) && s.outbox[key].task == ScanPage(id)
  {
    hide Delivered, RunsWork;
  }

  lemma OtherDeliveryKeeps(s: State, key: TaskKey, d: Delivery, id: ScanId)
    requires Queueing(s) && d.newScan !in s.scans && id in s.scans && s.orgActive
    requires !(RunsWork(s, key, d) && s.outbox[key].task == ScanPage(id)) && IsPending(Delivered(s, key, d).scans, id)
    ensures var t := Delivered(s, key, d);
      IsPending(s.scans, id) && t.scans[id].pageCount == s.scans[id].pageCount && Attempts(t, id) == Attempts(s, id)
  {
    hide TurnedTo;
    ScanChanges(s, key, d, id);
    if TurnsPageOf(s, key, d, id) { TurnsWorks(s, key, d, id); }
    OtherRowsKept(s, key, d);
    assert IsLive(s.outbox, PageOf(id, s.scans[id].pageCount));
    if key == PageOf(id, s.scans[id].pageCount) { Undelivered(s, key, d); }
  }

  lemma Undelivered(s: State, key: TaskKey, d: Delivery)
    requires !Deliverable(s, key, d.now)
    ensures Delivered(s, key, d) == s
  {
  }

  lemma OtherStepsKeep(w: World, step: Step, id: ScanId)
    requires Queueing(w.state) && !WorksOn(w, step, id) && id in w.state.scans
    requires Next(w, step).state.orgActive && IsPending(Next(w, step).state.scans, id)
    ensures IsPending(w.state.scans, id)
    ensures Next(w, step).state.scans[id].pageCount == w.state.scans[id].pageCount
    ensures Attempts(Next(w, step).state, id) == Attempts(w.state, id)
  {
    hide Delivered, Queueing, RunsWork;
    if step.Deliver? && Enabled(w, step) {
      OrgStays(w.state, step.key, step.d);
      OtherDeliveryKeeps(w.state, step.key, step.d, id);
    }
  }

  lemma OrgStays(s: State, key: TaskKey, d: Delivery)
    ensures Delivered(s, key, d).orgActive == s.orgActive
  {
    hide Refreshed, Delay, Handled, KnowsConnector, FailScan, FailPending, FailReceipt, UsesCredentials;
    if key in s.outbox {
      var task := s.outbox[key].task;
      HandledOrg(s, task, d);
      if Refreshed(s.connector, d.now, d.exchange).Ok? {
        HandledOrg(s.(connector := Refreshed(s.connector, d.now, d.exchange).value), task, d);
      }
    }
  }

  lemma HandledOrg(s: State, task: Task, d: Delivery)
    ensures Handled(s, task, d).Ok? ==> Handled(s, task, d).value.orgActive == s.orgActive
  {
    hide Fetched, Turned;
  }

  lemma NewScanStartsAtZero(w: World, step: Step, id: ScanId)
    requires id !in w.state.scans && id in Next(w, step).state.scans
    ensures Next(w, step).state.scans[id].pageCount == 0
  {
    hide Delivered, TurnsPageOf, TurnedTo, SameOrFailed;
    if step.Deliver? { ScanChanges(w.state, step.key, step.d, id); }
  }

  lemma Stays(w: World, step: Step, id: ScanId)
    ensures id in w.state.scans ==> id in Next(w, step).state.scans
    ensures Next(w, step).state.orgActive ==> w.state.orgActive
  {
    hide Delivered, TurnsPageOf, TurnedTo, SameOrFailed, StartsNew;
    if step.Deliver? && Enabled(w, step) {
      ScanChanges(w.state, step.key, step.d, id);
      OrgStays(w.state, step.key, step.d);
    }
  }

  /** The bound that holds of the deliveries which have worked on a scan so far. */
  predicate Bounded(s: State, id: ScanId, n: nat) {
    && (id !in s.scans ==> n == 0)
    && (IsPending(s.scans, id) ==> n <= MAX_ATTEMPTS * s.scans[id].pageCount + Attempts(s, id))
  }

  lemma BoundedStep(w: World, step: Step, id: ScanId, n: nat)
    requires Queueing(w.state) && Bounded(w.state, id, n) && Next(w, step).state.orgActive
    ensures Bounded(Next(w, step).state, id, if WorksOn(w, step, id) then n + 1 else n)
  {
    hide Queueing, Attempts, Delivered, RunsWork;
    Stays(w, step, id);
    var t := Next(w, step).state;
    if WorksOn(w, step, id) {
      RunsOnPending(w.state, step.key, step.d, id);
      if IsPending(t.scans, id) { WorkMakesProgress(w.state, step.key, step.d, id); }
    } else if IsPending(t.scans, id) {
      if id in w.state.scans {
        OtherStepsKeep(w, step, id);
      } else {
        NewScanStartsAtZero(w, step, id);
      }
    }
  }

  lemma {:induction false} DeliveriesBounded(tokens: Tokens, now: Time, steps: seq<Step>, id: ScanId)
    requires After(Start(tokens, now), steps).state.orgActive
    ensures Bounded(After(Start(tokens, now), steps).state, id, Deliveries(Start(tokens, now), steps, id))
  {
    if steps != [] {
      hide Queueing, WorksOn, Bounded, Next;
      var init, step := steps[..|steps| - 1], steps[|steps| - 1];
      var w := After(Start(tokens, now), init);
      AlwaysQueueing(tokens, now, init);
      Stays(w, step, id);
      DeliveriesBounded(tokens, now, init, id);
      BoundedStep(w, step, id, Deliveries(Start(tokens, now), init, id));
    }
  }

  /** So no scan stays pending for more than 80,007 deliveries that work on it. */
  lemma EveryScanLeavesPending(tokens: Tokens, now: Time, steps: seq<Step>, id: ScanId)
    requires var s := After(Start(tokens, now), steps).state; s.orgActive && IsPending(s.scans, id)
    ensures Deliveries(Start(tokens, now), steps, id) < MAX_ATTEMPTS * (PAGE_LIMIT + 1)
  {
    hide Next;
    AlwaysQueueing(tokens, now, steps);
    DeliveriesBounded(tokens, now, steps, id);
    var s := After(Start(tokens, now), steps).state;
    assert IsLive(s.outbox, PageOf(id, s.scans[id].pageCount));
  }
}
