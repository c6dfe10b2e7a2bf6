/**
 The worker that scans a payment account through a durable outbox: the rows of one connector, the delivery of one
 outbox row, and the two transactions of which it consists. A delivery is one atomic step.
 */
module StripeWorker {
  import opened Wrappers
  import opened Domain
  import opened Intervals
  import opened Projections

  type ScanId = nat
  type ReceiptId = nat

  datatype Tokens = Tokens(access: string, refresh: string)

  datatype ConnectorStatus = Active | Suspended | Disconnected

  datatype Connector = Connector(status: ConnectorStatus, tokens: Option<Tokens>, expiresAt: Option<Time>)

  datatype ScanStatus = ScanPending | ScanComplete | ScanFailed

  datatype ScanRow = ScanRow(
    window: Interval, phase: nat, providerCursor: string, pageCount: nat, status: ScanStatus, repair: bool)

  datatype ReceiptStatus = ReceiptPending | Normalized | Ignored | ReceiptFailed

  datatype Task = Poll | Repair | ScanPage(scan: ScanId) | ProcessReceipt(receipt: ReceiptId)

  /** The dedupe key of a row: a scheduling bucket, a scan and its page count, or a webhook receipt. */
  datatype TaskKey = Periodic(bucket: int) | PageOf(scan: ScanId, pageCount: nat) | ReceiptOf(receipt: ReceiptId)

  datatype RowStatus = RowPending | Queued | Done | Dead

  datatype Row = Row(task: Task, status: RowStatus, attempts: nat, availableAt: Time)

  datatype State = State(
    orgActive: bool, connector: Connector, scans: map<ScanId, ScanRow>, receipts: map<ReceiptId, ReceiptStatus>,
    entries: Entries, payments: CoverageRow, refunds: CoverageRow, outbox: map<TaskKey, Row>)

  datatype Failure = Failure(permanent: bool, retryAfter: nat)

  const TRANSIENT := Failure(false, 0)
  const PERMANENT := Failure(true, 0)

  /**
   What the provider does when a refresh token is exchanged: it issues a pair that is well-formed, for this account,
   and `kept` if saving it succeeds; or it issues a pair that never arrives or is unusable; or it issues nothing.
   */
  datatype Exchange = Issued(tokens: Tokens, kept: bool) | Lost(tokens: Tokens) | Refused

  /** A resource that was read and normalised; its revision is the time of the read. */
  datatype Fact = Fact(key: Key, data: Data, readAt: Time)

  function ReadOf(f: Fact): Observation { Observation(f.readAt, f.data) }

  /**
   What the provider answers. A page of a listing gives the facts of its rows, the id of its last row and whether more
   follow; when linked orders are rechecked the page is a batch of orders, and for a receipt only the facts count.
   Or reading or normalising something fails.
   */
  datatype Response = Page(facts: seq<Fact>, last: Option<string>, hasMore: bool) | Failed(failure: Failure)

  /** All that a delivery takes from outside. The work starts at `now` and its later parts happen at `later`. */
  datatype Delivery = Delivery(
    now: Time, exchange: Exchange, later: Time, response: Response, newScan: ScanId, jitter: nat)

  const PAYMENTS := "stripe_payments"
  const REFUNDS := "stripe_refunds"
  const PHASES := 4
  const PAGE_LIMIT := 10000
  const MAX_ATTEMPTS := 8

  // ----- the outbox -----

  predicate Live(row: Row) { row.status == RowPending || row.status == Queued }

  function Enqueued(outbox: map<TaskKey, Row>, key: TaskKey, task: Task, now: Time): map<TaskKey, Row> {
    if key in outbox then outbox else outbox[key := Row(task, RowPending, 0, now)]
  }

  function Pow2(n: nat): nat { if n == 0 then 1 else 2 * Pow2(n - 1) }

  function Delay(attempts: nat, jitter: nat, retryAfter: nat): nat {
    var delay := (if Pow2(attempts) < 900 then Pow2(attempts) else 900) + jitter;
    if delay < retryAfter then retryAfter else delay
  }

  /** Existing rows are untouched. */
  ghost predicate Keeps(before: map<TaskKey, Row>, after: map<TaskKey, Row>) {
    forall key :: key in before ==> key in after && after[key] == before[key]
  }

  // ----- starting a scan -----

  predicate AnyPending(scans: map<ScanId, ScanRow>) { exists id :: id in scans && scans[id].status == ScanPending }

  function WindowFor(covered: Option<Interval>, repair: bool, now: Time): Interval {
    var through := now - 30;
    var month := through - 30 * DAY;
    Interval(
      if repair || covered.None? || covered.value.through - 30 * MINUTE < month then month
      else covered.value.through - 30 * MINUTE, through)
  }

  function Polled(s: State, repair: bool, id: ScanId, now: Time): (r: Result<State, Failure>)
    ensures r.Ok? ==> Keeps(s.outbox, r.value.outbox)
    ensures r.Err? ==> !r.error.permanent
  {
    if s.connector.status != Active then Err(TRANSIENT)
    else if AnyPending(s.scans) then Ok(s)
    else
      Ok(s.(scans := s.scans[id := ScanRow(WindowFor(s.payments.covered, repair, now), 0, "", 0, ScanPending, repair)],
           outbox := Enqueued(s.outbox, PageOf(id, 0), ScanPage(id), now)))
  }

  // ----- one page of a scan -----

  /** The scan after a page, or None when the provider's pages do not move on. */
  function Turned(scan: ScanRow, last: Option<string>, hasMore: bool): Option<ScanRow> {
    if scan.phase < PHASES then
      if !hasMore then Some(scan.(phase := scan.phase + 1, providerCursor := ""))
      else if last.None? || last.value == scan.providerCursor then None
      else Some(scan.(providerCursor := last.value))
    else if last.Some? then Some(scan.(providerCursor := last.value))
    else Some(scan.(status := ScanComplete))
  }

  predicate MayExtend(s: State, window: Interval) {
    Contiguous(s.payments.covered, window) && Contiguous(s.refunds.covered, window)
  }

  function Extended(row: CoverageRow, window: Interval, now: Time): CoverageRow {
    CoverageRow(Some(Hull(row.covered, window)), Some(now), true)
  }

  /** The connector can be used and its access token is still valid. */
  predicate Readable(c: Connector, now: Time) {
    c.status == Active && c.tokens.Some? && c.expiresAt.Some? && c.expiresAt.value > now
  }

  /** The projections with the facts stored one by one; the first conflict raises. */
  function StoredAll(entries: Entries, facts: seq<Fact>): Result<Entries, Conflict> {
    if facts == [] then Ok(entries)
    else
      var last := facts[|facts| - 1];
      match StoredAll(entries, facts[..|facts| - 1])
      case Err(c) => Err(c)
      case Ok(before) =>
        if Conflicts(EntryOf(before, last.key), ReadOf(last)) then Err(SourceRevisionConflict)
        else Ok(StoredIn(before, last.key, ReadOf(last)))
  }

  /** The conditions of reading from the provider, and what it answered stored. */
  function Fetched(s: State, now: Time, response: Response): (r: Result<Entries, Failure>)
    ensures r.Ok? ==> Readable(s.connector, now) && response.Page?
  {
    if !Readable(s.connector, now) then Err(TRANSIENT)
    else
      match response
      case Failed(f) => Err(f)
      case Page(facts, _, _) =>
        match StoredAll(s.entries, facts)
        case Err(_) => Err(TRANSIENT)
        case Ok(entries) => Ok(entries)
  }

  function Paged(s: State, id: ScanId, now: Time, response: Response): (r: Result<State, Failure>)
    ensures r.Ok? ==> Keeps(s.outbox, r.value.outbox)
  {
    if id !in s.scans then Err(TRANSIENT)
    else if s.scans[id].status != ScanPending then Ok(s)
    else
      match Fetched(s, now, response)
      case Err(f) => Err(f)
      case Ok(entries) =>
        var scan := s.scans[id];
        var turned := Turned(scan, response.last, response.hasMore);
        if turned.None? || scan.pageCount >= PAGE_LIMIT then Err(TRANSIENT)
        else if turned.value.status == ScanComplete then
          if !MayExtend(s, scan.window) then Err(TRANSIENT)
          else
            Ok(s.(scans := s.scans[id := turned.value.(pageCount := scan.pageCount + 1)], entries := entries,
                 payments := Extended(s.payments, scan.window, now), refunds := Extended(s.refunds, scan.window, now)))
        else
          Ok(s.(scans := s.scans[id := turned.value.(pageCount := scan.pageCount + 1)], entries := entries,
               outbox := Enqueued(s.outbox, PageOf(id, scan.pageCount + 1), ScanPage(id), now)))
  }

  // ----- a webhook receipt -----

  predicate Settled(status: ReceiptStatus) { status == Normalized || status == Ignored }

  function Processed(s: State, id: ReceiptId, now: Time, response: Response): (r: Result<State, Failure>)
    ensures r.Ok? ==> Keeps(s.outbox, r.value.outbox)
  {
    if id !in s.receipts then Err(TRANSIENT)
    else if Settled(s.receipts[id]) then Ok(s)
    else
      match Fetched(s, now, response)
      case Err(f) => Err(f)
      case Ok(entries) => Ok(s.(receipts := s.receipts[id := Normalized], entries := entries))
  }

  function Handled(s: State, task: Task, d: Delivery): (r: Result<State, Failure>)
    ensures r.Ok? ==> Keeps(s.outbox, r.value.outbox)
  {
    match task
    case Poll => Polled(s, false, d.newScan, d.later)
    case Repair => Polled(s, true, d.newScan, d.later)
    case ScanPage(id) => Paged(s, id, d.later, d.response)
    case ProcessReceipt(id) => Processed(s, id, d.later, d.response)
  }

  // ----- credentials -----

  predicate NeedsExchange(c: Connector, now: Time) {
    c.status == Active && c.tokens.Some? && (c.expiresAt.None? || c.expiresAt.value <= now)
  }

  function Refreshed(c: Connector, now: Time, exchange: Exchange): Result<Connector, Failure> {
    if c.status != Active || c.tokens.None? then Err(PERMANENT)
    else if !NeedsExchange(c, now) then Ok(c)
    else if exchange.Issued? && exchange.kept then
      Ok(c.(tokens := Some(exchange.tokens), expiresAt := Some(now + 55 * MINUTE)))
    else Err(PERMANENT)
  }

  function Suspend(c: Connector): Connector { c.(status := Suspended, tokens := None) }

  // ----- one delivery -----

  /** The work is unfinished and reads the provider, so the connector is locked and its credentials refreshed first. */
  predicate UsesCredentials(s: State, task: Task) {
    match task
    case ScanPage(id) => id in s.scans && s.scans[id].status == ScanPending
    case ProcessReceipt(id) => id in s.receipts && !Settled(s.receipts[id])
    case _ => false
  }

  predicate Deliverable(s: State, key: TaskKey, now: Time) {
    key in s.outbox && Live(s.outbox[key]) && s.outbox[key].availableAt <= now
  }

  function Finished(s: State, key: TaskKey): State
    requires key in s.outbox
  {
    s.(outbox := s.outbox[key := s.outbox[key].(status := Done)])
  }

  /** What the first transaction commits, and the failure that the second has to record. */
  function FirstCommit(s: State, key: TaskKey, d: Delivery): (r: (State, Option<Failure>))
    requires key in s.outbox
    ensures r.1.Some? ==> r.0.outbox == s.outbox
  {
    var task := s.outbox[key].task;
    if !s.orgActive then (Finished(s, key), None)
    else if !UsesCredentials(s, task) then
      match Handled(s, task, d)
      case Ok(t) => (Finished(t, key), None)
      case Err(f) => (s, Some(f))
    else if s.connector.status != Active then (s, Some(TRANSIENT))
    else
      match Refreshed(s.connector, d.now, d.exchange)
      case Err(f) => (s.(connector := Suspend(s.connector)), Some(f))
      case Ok(c) =>
        match Handled(s.(connector := c), task, d)
        case Ok(t) => (Finished(t, key), None)
        case Err(f) => (s.(connector := if f.permanent then Suspend(c) else c), Some(f))
  }

  function FailPending(scans: map<ScanId, ScanRow>): map<ScanId, ScanRow> {
    map id | id in scans ::
      (if scans[id].status == ScanPending then scans[id].(status := ScanFailed) else scans[id])
  }

  function FailScan(scans: map<ScanId, ScanRow>, task: Task): map<ScanId, ScanRow> {
    if task.ScanPage? && task.scan in scans && scans[task.scan].status == ScanPending
    then scans[task.scan := scans[task.scan].(status := ScanFailed)]
    else scans
  }

  function FailReceipt(receipts: map<ReceiptId, ReceiptStatus>, task: Task): map<ReceiptId, ReceiptStatus> {
    if task.ProcessReceipt? && task.receipt in receipts then receipts[task.receipt := ReceiptFailed] else receipts
  }

  /** The connector of a row can be found from what the row refers to. */
  predicate KnowsConnector(s: State, task: Task) {
    match task
    case ScanPage(id) => id in s.scans
    case ProcessReceipt(id) => id in s.receipts
    case _ => true
  }

  /** What the second transaction commits after a failure. */
  function SecondCommit(s: State, key: TaskKey, f: Failure, now: Time, jitter: nat): State
    requires key in s.outbox
  {
    var row := s.outbox[key];
    var attempts := row.attempts + 1;
    var dead := f.permanent || attempts >= MAX_ATTEMPTS;
    var availableAt := now + Delay(attempts, jitter, f.retryAfter);
    var recorded := row.(attempts := attempts, status := if dead then Dead else RowPending, availableAt := availableAt);
    var known := KnowsConnector(s, row.task);
    var scans := if dead then FailScan(s.scans, row.task) else s.scans;
    State(s.orgActive, if f.permanent && known then Suspend(s.connector) else s.connector,
      if f.permanent && known then FailPending(scans) else scans,
      if dead then FailReceipt(s.receipts, row.task) else s.receipts, s.entries,
      if dead && known then Incomplete(s.payments) else s.payments,
      if dead && known then Incomplete(s.refunds) else s.refunds, s.outbox[key := recorded])
  }

  function Delivered(s: State, key: TaskKey, d: Delivery): State {
    if !Deliverable(s, key, d.now) then s
    else
      var (t, failure) := FirstCommit(s, key, d);
      match failure
      case None => t
      case Some(f) => SecondCommit(t, key, f, d.later, d.jitter)
  }

  function Connected(tokens: Tokens, now: Time): State {
    State(true, Connector(Active, Some(tokens), Some(now + 55 * MINUTE)), map[], map[], map[], NO_COVERAGE, NO_COVERAGE,
      map[])
  }

  class Worker {
    var orgActive: bool
    var connector: Connector
    var scans: map<ScanId, ScanRow>
    var receipts: map<ReceiptId, ReceiptStatus>
    var outbox: map<TaskKey, Row>
    const store: ProjectionStore

    /** An account that has just been connected. */
    constructor (tokens: Tokens, now: Time)
      ensures Current() == Connected(tokens, now) && fresh(store)
    {
      orgActive, connector := true, Connector(Active, Some(tokens), Some(now + 55 * MINUTE));
      scans, receipts, outbox := map[], map[], map[];
      store := new ProjectionStore();
    }

    function Current(): State
      reads this, store
    {
      State(orgActive, connector, scans, receipts, store.entries, RowOf(store.coverage, PAYMENTS),
        RowOf(store.coverage, REFUNDS), outbox)
    }

    method Enqueue(key: TaskKey, task: Task, now: Time)
      modifies this`outbox
      ensures outbox == Enqueued(old(outbox), key, task, now)
    {
      if key !in outbox {
        outbox := outbox[key := Row(task, RowPending, 0, now)];
      }
    }

    method PollConnector(repair: bool, id: ScanId, now: Time) returns (failure: Option<Failure>)
      modifies this`scans, this`outbox
      ensures match Polled(old(Current()), repair, id, now)
              case Ok(t) => failure.None? && Current() == t
              case Err(f) => failure == Some(f) && Current() == old(Current())
    {
      if connector.status != Active {
        return Some(TRANSIENT);
      }
      if AnyPending(scans) {
        return None;
      }
      var through := now - 30;
      var start := through - 30 * DAY;
      var payments := RowOf(store.coverage, PAYMENTS);
      if !repair && payments.covered.Some? && payments.covered.value.through - 30 * MINUTE > start {
        start := payments.covered.value.through - 30 * MINUTE;
      }
      scans := scans[id := ScanRow(Interval(start, through), 0, "", 0, ScanPending, repair)];
      Enqueue(PageOf(id, 0), ScanPage(id), now);
      failure := None;
    }

    /** May leave the payments cursor changed when it raises. */
    method AdvanceCoverage(window: Interval, now: Time) returns (ok: bool)
      modifies store`coverage
      ensures ok <==> MayExtend(old(Current()), window)
      ensures ok ==> RowOf(store.coverage, PAYMENTS) == Extended(old(Current()).payments, window, now)
      ensures ok ==> RowOf(store.coverage, REFUNDS) == Extended(old(Current()).refunds, window, now)
    {
      var payments, refunds := RowOf(store.coverage, PAYMENTS), RowOf(store.coverage, REFUNDS);
      if payments.covered.Some? && window.from > payments.covered.value.through {
        return false;
      }
      store.coverage := store.coverage[PAYMENTS := Extended(payments, window, now)];
      if refunds.covered.Some? && window.from > refunds.covered.value.through {
        return false;
      }
      store.coverage := store.coverage[REFUNDS := Extended(refunds, window, now)];
      ok := true;
    }

    /** Stores facts until one conflicts. Leaves its writes behind when it raises. */
    method StoreFacts(facts: seq<Fact>) returns (ok: bool)
      modifies store
      ensures ok <==> StoredAll(old(store.entries), facts).Ok?
      ensures ok ==> StoredAll(old(store.entries), facts) == Ok(store.entries) && store.coverage == old(store.coverage)
    {
      for i := 0 to |facts|
        invariant StoredAll(old(store.entries), facts[..i]) == Ok(store.entries)
        invariant store.coverage == old(store.coverage)
      {
        assert facts[..i + 1][..i] == facts[..i];
        var stored := store.Upsert(facts[i].key, facts[i].readAt, facts[i].data);
        if stored.Err? {
          ConflictStops(old(store.entries), facts, i + 1);
          return false;
        }
      }
      assert facts[..|facts|] == facts;
      ok := true;
    }

    /** Reads from the provider with a valid token, and stores what it answers. Leaves its writes behind on failure. */
    method Fetch(now: Time, response: Response) returns (failure: Option<Failure>)
      modifies store
      ensures match Fetched(old(Current()), now, response)
              case Ok(entries) => failure.None? && store.entries == entries && store.coverage == old(store.coverage)
              case Err(f) => failure == Some(f)
    {
      if connector.status != Active || connector.expiresAt.None? || connector.expiresAt.value <= now
        || connector.tokens.None?
      {
        return Some(TRANSIENT);
      }
      if response.Failed? {
        return Some(response.failure);
      }
      var stored := StoreFacts(response.facts);
      failure := if stored then None else Some(TRANSIENT);
    }

    /** Leaves its writes behind when it raises; only for use inside a savepoint. */
    method TurnPage(id: ScanId, now: Time, response: Response) returns (failure: Option<Failure>)
      modifies this`scans, this`outbox, store
      ensures match Paged(old(Current()), id, now, response)
              case Ok(t) => failure.None? && Current() == t
              case Err(f) => failure == Some(f) && scans == old(scans) && outbox == old(outbox)
    {
      hide StoredAll, Hull;
      if id !in scans {
        return Some(TRANSIENT);
      }
      var scan := scans[id];
      if scan.status != ScanPending {
        return None;
      }
      failure := Fetch(now, response);
      if failure.Some? {
        return;
      }
      if scan.phase < PHASES {
        if response.hasMore {
          if response.last.None? || response.last.value == scan.providerCursor {
            return Some(TRANSIENT);
          }
          scan := scan.(providerCursor := response.last.value);
        } else {
          scan := scan.(phase := scan.phase + 1, providerCursor := "");
        }
      } else if response.last.Some? {
        scan := scan.(providerCursor := response.last.value);
      } else {
        var advanced := AdvanceCoverage(scan.window, now);
        if !advanced {
          return Some(TRANSIENT);
        }
        scan := scan.(status := ScanComplete);
      }
      scan := scan.(pageCount := scan.pageCount + 1);
      if scan.pageCount > PAGE_LIMIT {
        return Some(TRANSIENT);
      }
      scans := scans[id := scan];
      if scan.status == ScanPending {
        Enqueue(PageOf(id, scan.pageCount), ScanPage(id), now);
      }
      failure := None;
    }

    /** Leaves its writes behind when it raises; only for use inside a savepoint. */
    method Process(id: ReceiptId, now: Time, response: Response) returns (failure: Option<Failure>)
      modifies this`receipts, store
      ensures match Processed(old(Current()), id, now, response)
              case Ok(t) => failure.None? && Current() == t
              case Err(f) => failure == Some(f) && receipts == old(receipts)
    {
      hide StoredAll;
      if id !in receipts {
        return Some(TRANSIENT);
      }
      if receipts[id] == Normalized || receipts[id] == Ignored {
        return None;
      }
      failure := Fetch(now, response);
      if failure.None? {
        receipts := receipts[id := Normalized];
      }
    }

    /** The handler of a task, inside a savepoint: a failure restores every row it wrote. */
    method Handle(task: Task, d: Delivery) returns (failure: Option<Failure>)
      modifies this`scans, this`receipts, this`outbox, store
      ensures match Handled(old(Current()), task, d)
              case Ok(t) => failure.None? && Current() == t
              case Err(f) => failure == Some(f) && Current() == old(Current())
    {
      hide Paged, Processed, Polled;
      var entries, coverage := store.entries, store.coverage;
      match task {
        case Poll => failure := PollConnector(false, d.newScan, d.later);
        case Repair => failure := PollConnector(true, d.newScan, d.later);
        case ScanPage(id) => failure := TurnPage(id, d.later, d.response);
        case ProcessReceipt(id) => failure := Process(id, d.later, d.response);
      }
      if failure.Some? {
        store.entries, store.coverage := entries, coverage;
      }
    }

    method Refresh(now: Time, exchange: Exchange) returns (failure: Option<Failure>)
      modifies this`connector
      ensures match Refreshed(old(connector), now, exchange)
              case Ok(c) => failure.None? && connector == c
              case Err(f) => failure == Some(f) && connector == old(connector)
    {
      if connector.status != Active || connector.tokens.None? {
        return Some(PERMANENT);
      }
      if connector.expiresAt.None? || connector.expiresAt.value <= now {
        match exchange {
          case Issued(tokens, true) =>
            connector := connector.(tokens := Some(tokens), expiresAt := Some(now + 55 * MINUTE));
          case _ => return Some(PERMANENT);
        }
      }
      failure := None;
    }

    /** The connector that a row's work needs locked and refreshed. */
    method NeedsCredentials(task: Task) returns (needed: bool)
      ensures needed == UsesCredentials(Current(), task)
    {
      match task {
        case ScanPage(id) => needed := id in scans && scans[id].status == ScanPending;
        case ProcessReceipt(id) => needed := id in receipts && receipts[id] != Normalized && receipts[id] != Ignored;
        case _ => needed := false;
      }
    }

    /** The transaction that does the work. */
    method RunRow(key: TaskKey, d: Delivery) returns (failure: Option<Failure>)
      requires key in outbox
      modifies this, store
      ensures (Current(), failure) == FirstCommit(old(Current()), key, d)
    {
      hide UsesCredentials, Handled, Refreshed;
      var task := outbox[key].task;
      if !orgActive {
        outbox := outbox[key := outbox[key].(status := Done)];
        return None;
      }
      var credentials := NeedsCredentials(task);
      if credentials {
        if connector.status != Active {
          return Some(TRANSIENT);
        }
        failure := Refresh(d.now, d.exchange);
        if failure.Some? {
          connector := Suspend(connector);
          return;
        }
      }
      failure := Handle(task, d);
      if failure.None? {
        outbox := outbox[key := outbox[key].(status := Done)];
      } else if failure.value.permanent && credentials {
        connector := Suspend(connector);
      }
    }

    /** The transaction that records a failure. */
    method RecordFailure(key: TaskKey, f: Failure, now: Time, jitter: nat)
      requires key in outbox
      modifies this, store
      ensures Current() == SecondCommit(old(Current()), key, f, now, jitter)
    {
      hide Delay;
      var row := outbox[key];
      row := row.(attempts := row.attempts + 1);
      row := row.(status := if f.permanent || row.attempts >= MAX_ATTEMPTS then Dead else RowPending);
      row := row.(availableAt := now + Delay(row.attempts, jitter, f.retryAfter));
      outbox := outbox[key := row];
      var known := true;
      match row.task {
        case Poll =>
        case Repair =>
        case ScanPage(id) =>
          known := id in scans;
          if row.status == Dead && known && scans[id].status == ScanPending {
            scans := scans[id := scans[id].(status := ScanFailed)];
          }
        case ProcessReceipt(id) =>
          known := id in receipts;
          if row.status == Dead && known {
            receipts := receipts[id := ReceiptFailed];
          }
      }
      if row.status == Dead && known {
        store.coverage := AllIncomplete(store.coverage);
      }
      if f.permanent && known {
        connector := Suspend(connector);
        scans := FailPending(scans);
      }
    }

    method RunMessage(key: TaskKey, d: Delivery)
      modifies this, store
      ensures Current() == Delivered(old(Current()), key, d)
    {
      hide FirstCommit, SecondCommit;
      if key !in outbox || outbox[key].status == Done || outbox[key].status == Dead || outbox[key].availableAt > d.now {
        return;
      }
      FirstKeepsRow(Current(), key, d);
      var failure := RunRow(key, d);
      if failure.Some? {
        RecordFailure(key, failure.value, d.later, d.jitter);
      }
    }
  }

  lemma FirstKeepsRow(s: State, key: TaskKey, d: Delivery)
    requires key in s.outbox
    ensures key in FirstCommit(s, key, d).0.outbox
  {
    hide Handled, Refreshed;
  }

  lemma {:induction false} ConflictStops(entries: Entries, facts: seq<Fact>, k: nat)
    requires k <= |facts| && StoredAll(entries, facts[..k]).Err?
    ensures StoredAll(entries, facts).Err?
    decreases |facts|
  {
    if k < |facts| {
      assert facts[..|facts| - 1][..k] == facts[..k];
      ConflictStops(entries, facts[..|facts| - 1], k);
    } else {
      assert facts[..k] == facts;
    }
  }
}
