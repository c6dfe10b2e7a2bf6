/**
 The plugin and the server joined by a network that may lose, repeat, delay and reorder requests and answers. Nothing
 is assumed of the two clocks. Identifiers that the plugin generates are new.
 */
module WooProtocol {
  import opened Wrappers
  import opened Domain
  import opened Intervals
  import opened WooBatches
  import opened WooServer
  import opened WooRuns
  import opened Plugin

  /**
   `sent` and `replies` hold every request and answer ever produced. `used` holds the identifiers generated, and
   `deltas` the scans that were started from a cursor.
   */
  datatype World = World(
    history: History, scan: Option<Scan>, cursor: Option<Time>, sent: set<Envelope>, replies: set<Ack>,
    used: set<Uuid>, deltas: set<Uuid>)

  const PAIRED := World(History(NEW_SERVER, []), None, None, {}, {}, {}, {})

  datatype Step =
    | Start(repair: bool, now: Time, id: Uuid, query: Query)
    | Send(extract: Extraction, requestId: Uuid, now: Time)
    | Deliver(envelope: Envelope, now: Time)
    | Receive(reply: Option<Ack>)
    | Retry

  predicate Enabled(w: World, step: Step) {
    match step
    case Start(_, _, id, _) => id !in w.used
    case Send(_, requestId, _) => w.scan.Some? && requestId !in w.used
    case Deliver(e, _) => e in w.sent
    case Receive(reply) =>
      w.scan.Some? && w.scan.value.pending.Some? && (reply.Some? ==> reply.value in w.replies)
    case Retry => true
  }

  function ReplySet(s: Server, e: Envelope, now: Time): set<Ack> {
    match Answer(s, e, now)
    case Ok(ack) => {ack}
    case Err(_) => {}
  }

  function Next(w: World, step: Step): World {
    if !Enabled(w, step) then w
    else
      match step
      case Start(repair, now, id, query) =>
        w.(scan := Started(w.scan, w.cursor, repair, now, id, query), used := w.used + {id},
          deltas := if !repair && w.cursor.Some? then w.deltas + {id} else w.deltas)
      case Send(extract, requestId, now) =>
        var s := Prepared(w.scan.value, extract, requestId, now);
        w.(scan := Some(s), used := w.used + {requestId},
          sent := w.sent + if s.pending.Some? then {s.pending.value} else {})
      case Deliver(e, now) =>
        w.(history := Extended(w.history, Delivery(e, now)),
          replies := w.replies + ReplySet(w.history.server, e, now))
      case Receive(reply) =>
        w.(scan := Settled(w.scan.value, reply), cursor := CursorAfter(w.cursor, w.scan.value, reply))
      case Retry => w.(scan := None)
  }

  function After(steps: seq<Step>): World {
    if steps == [] then PAIRED else Next(After(steps[..|steps| - 1]), steps[|steps| - 1])
  }

  // ----- what every step keeps -----

  /** One request per request id, and one content per page of a scan. */
  ghost predicate SentSound(sent: set<Envelope>, used: set<Uuid>) {
    && (forall e :: e in sent ==> e.requestId in used && e.content.scan in used)
    && (forall e, f :: e in sent && f in sent && e.requestId == f.requestId ==> e == f)
    && (forall e, f :: e in sent && f in sent && KeyOf(e.content) == KeyOf(f.content) ==> e.content == f.content)
  }

  /** The scan under way has sent earlier pages, and of the current one only what is pending. */
  ghost predicate ScanSound(scan: Option<Scan>, sent: set<Envelope>, used: set<Uuid>) {
    scan.Some? ==>
      var s := scan.value;
      && s.scan in used
      && (s.pending.Some? ==>
            && s.pending.value in sent && s.pending.value.content.scan == s.scan
            && s.pending.value.content.page == s.page && s.pending.value.content.window == s.window)
      && forall e :: e in sent && e.content.scan == s.scan ==>
           e.content.page < s.page || (s.pending.Some? && e.content == s.pending.value.content)
  }

  /** The server knows only what was sent. */
  ghost predicate ServerSound(s: Server, sent: set<Envelope>) {
    && (forall key :: key in s.pages ==> exists e :: e in sent && e.content == s.pages[key].content)
    && (forall id :: id in s.receipts ==> s.receipts[id].body in sent)
  }

  /** The request was computed, with this outcome. */
  predicate Outcome(s: Server, e: Envelope, a: Ack) {
    var key := KeyOf(e.content);
    key in s.pages && s.pages[key].content == e.content && SameOutcome(s.pages[key].result, a)
  }

  ghost predicate RepliesSound(s: Server, sent: set<Envelope>, replies: set<Ack>, used: set<Uuid>) {
    && (forall a :: a in replies ==> a.requestId in used)
    && (forall a, e :: a in replies && e in sent && a.requestId == e.requestId ==> Outcome(s, e, a))
  }

  predicate Covers(s: Server, t: Time) {
    s.orders.coverage.covered.Some? && t <= s.orders.coverage.covered.value.through
  }

  /** A window starts within what is covered, or it is that of a full scan. */
  predicate WindowSound(s: Server, window: Interval, delta: bool) {
    if delta then Covers(s, window.from) else window.from == window.through - 35 * DAY
  }

  ghost predicate WindowsSound(s: Server, scan: Option<Scan>, sent: set<Envelope>, deltas: set<Uuid>) {
    && (forall e :: e in sent ==> WindowSound(s, e.content.window, e.content.scan in deltas))
    && (scan.Some? ==> WindowSound(s, scan.value.window, scan.value.scan in deltas))
  }

  ghost predicate Sound(w: World) {
    && Kept(w.history)
    && w.deltas <= w.used
    && SentSound(w.sent, w.used)
    && ScanSound(w.scan, w.sent, w.used)
    && ServerSound(w.history.server, w.sent)
    && RepliesSound(w.history.server, w.sent, w.replies, w.used)
    && (w.cursor.Some? ==> Covers(w.history.server, w.cursor.value))
    && WindowsSound(w.history.server, w.scan, w.sent, w.deltas)
  }

  lemma StartSound(w: World, step: Step)
    requires Sound(w) && step.Start? && Enabled(w, step)
    ensures Sound(Next(w, step))
  {
    hide Kept, Outcome;
  }

  lemma SendSound(w: World, step: Step)
    requires Sound(w) && step.Send? && Enabled(w, step)
    ensures Sound(Next(w, step))
  {
    hide Kept, Outcome, Fill, Take, Rest;
  }

  lemma CoverageGrows(s: Server, e: Envelope, now: Time, t: Time)
    requires Covers(s, t)
    ensures Covers(Received(s, e, now), t)
  {
    hide WithRecords, ResultsOf, AnyRejected, AcceptableWindow, InSequence;
  }

  /** A request adds at most its own page and receipt. */
  lemma ServerGrows(s: Server, e: Envelope, now: Time)
    ensures var t := Received(s, e, now);
      && (forall key :: key in s.pages ==> key in t.pages && t.pages[key] == s.pages[key])
      && (forall key :: key in t.pages ==> key in s.pages || t.pages[key].content == e.content)
      && (forall id :: id in t.receipts ==>
            (id in s.receipts && t.receipts[id] == s.receipts[id]) || t.receipts[id].body == e)
  {
    hide WithRecords, ResultsOf, AnyRejected, AcceptableWindow, InSequence, CoverageAfter, Advances, Entered;
  }

  lemma AnswerNamesRequest(s: Server, e: Envelope, now: Time)
    requires ReceiptsSound(s) && Answer(s, e, now).Ok?
    ensures Answer(s, e, now).value.requestId == e.requestId
  {
    hide WithRecords, ResultsOf, AnyRejected, AcceptableWindow, InSequence, CoverageAfter, Advances, Entered;
  }

  lemma KeptReceipts(h: History)
    requires Kept(h)
    ensures ReceiptsSound(h.server)
  {
  }

  lemma DeliverReplies(w: World, e: Envelope, now: Time)
    requires Sound(w) && e in w.sent
    ensures var s := w.history.server;
      RepliesSound(Received(s, e, now), w.sent, w.replies + ReplySet(s, e, now), w.used)
  {
    hide Kept, PagesSound, ReceiptsSound, Received, Answer, ScanSound, Covers, SameOutcome, KeyOf, WindowsSound,
      ServerSound;
    var s := w.history.server;
    ServerGrows(s, e, now);
    if Answer(s, e, now).Ok? {
      KeptReceipts(w.history);
      AnswerNamesRequest(s, e, now);
      AnswerIsStored(w.history, Delivery(e, now));
    }
  }

  lemma DeliverSound(w: World, step: Step)
    requires Sound(w) && step.Deliver? && Enabled(w, step)
    ensures Sound(Next(w, step))
  {
    hide Kept, Received, Answer, ScanSound, Covers, Computes, PageOf, KeyOf, RepliesSound, SentSound, ReplySet;
    var s, e, now := w.history.server, step.envelope, step.now;
    ExtendedKept(w.history, Delivery(e, now));
    ServerGrows(s, e, now);
    forall t | Covers(s, t) ensures Covers(Received(s, e, now), t) { CoverageGrows(s, e, now, t); }
    DeliverReplies(w, e, now);
  }

  /** The plugin's cursor moves only to the end of a window that the server covers. */
  lemma CursorIsCovered(w: World, reply: Option<Ack>)
    requires Sound(w) && Enabled(w, Receive(reply))
    requires Completes(reply, w.scan.value.pending.value) && w.scan.value.pending.value.content.finalPage
    ensures Covers(w.history.server, w.scan.value.window.through)
  {
    var e := w.scan.value.pending.value;
    assert Outcome(w.history.server, e, reply.value);
    assert PagesSound(w.history.server);
  }

  lemma ReceiveSound(w: World, step: Step)
    requires Sound(w) && step.Receive? && Enabled(w, step)
    ensures Sound(Next(w, step))
  {
    hide Acknowledges, Kept;
    var e := w.scan.value.pending.value;
    if Completes(step.reply, e) && e.content.finalPage {
      CursorIsCovered(w, step.reply);
    }
  }

  lemma StepSound(w: World, step: Step)
    requires Sound(w)
    ensures Sound(Next(w, step))
  {
    if Enabled(w, step) {
      hide SentSound, ServerSound, RepliesSound, Kept;
      match step {
        case Start(_, _, _, _) => StartSound(w, step);
        case Send(_, _, _) => SendSound(w, step);
        case Deliver(_, _) => DeliverSound(w, step);
        case Receive(_) => ReceiveSound(w, step);
        case Retry =>
      }
    }
  }

  lemma {:induction false} AlwaysSound(steps: seq<Step>)
    ensures Sound(After(steps))
  {
    if steps == [] {
      WooRuns.AlwaysKept([]);
    } else {
      hide Sound, Next;
      AlwaysSound(steps[..|steps| - 1]);
      StepSound(After(steps[..|steps| - 1]), steps[|steps| - 1]);
    }
  }

  // ----- every run -----

  /** A request of the plugin never meets a conflict of request ids or of page contents, however it is repeated. */
  lemma NoConflicts(steps: seq<Step>, e: Envelope, now: Time)
    requires e in After(steps).sent
    ensures var answer := Answer(After(steps).history.server, e, now);
      answer != Err(RequestIdConflict) && answer != Err(ScanPageContentConflict)
  {
    hide Next, ScanSound, Outcome, InProgress, HullOf, Windows, LogStored, Computed, AcceptableWindow, InSequence;
    AlwaysSound(steps);
    var w := After(steps);
    var s, key := w.history.server, KeyOf(e.content);
    if key in s.pages {
      var f :| f in w.sent && f.content == s.pages[key].content;
      assert KeyOf(f.content) == key;
    }
  }

  /** The saved request was signed by one of the sends. */
  lemma {:induction false} SavedWasSigned(steps: seq<Step>)
    ensures var w := After(steps);
      w.scan.Some? && w.scan.value.pending.Some? ==>
        exists i :: 0 <= i < |steps| && steps[i].Send? && steps[i].now == w.scan.value.pending.value.sentAt
  {
    hide Extended, Fill, Acknowledges, Take, Rest;
    if steps != [] {
      var init, last := steps[..|steps| - 1], steps[|steps| - 1];
      SavedWasSigned(init);
      var w, t := After(init), After(steps);
      if t.scan.Some? && t.scan.value.pending.Some? {
        var signedAt := t.scan.value.pending.value.sentAt;
        if last.Send? && signedAt == last.now {
          assert steps[|init|].Send? && steps[|init|].now == signedAt;
        } else {
          assert w.scan.Some? && w.scan.value.pending.Some? && w.scan.value.pending.value.sentAt == signedAt;
          var i :| 0 <= i < |init| && init[i].Send? && init[i].now == signedAt;
          assert steps[i] == init[i];
        }
      }
    }
  }

  /**
   While the shop's clock does not run backwards, a request that is delivered within a minute of its sending, by the
   server's clock, is never refused as too old or too new. One is refused exactly beyond five minutes of its signing.
   */
  lemma SentInTimeIsAccepted(steps: seq<Step>, more: seq<Step>, at: Time)
    requires |steps| > 0 && steps[|steps| - 1].Send? && Enabled(After(steps[..|steps| - 1]), steps[|steps| - 1])
    requires forall i :: 0 <= i < |steps| && steps[i].Send? ==> steps[i].now <= steps[|steps| - 1].now
    requires After(steps).scan.Some? && After(steps).scan.value.pending.Some?
    requires -60 <= at - steps[|steps| - 1].now <= 60
    ensures Answer(After(steps + more).history.server, After(steps).scan.value.pending.value, at)
         != Err(SignatureExpired)
  {
    hide Answer;
    var init, last := steps[..|steps| - 1], steps[|steps| - 1];
    var w := After(init);
    SavedWasSigned(init);
    AlwaysSound(init);
    SavedIdIsUsed(w);
    if w.scan.value.pending.Some? {
      var i :| 0 <= i < |init| && init[i].Send? && init[i].now == w.scan.value.pending.value.sentAt;
      assert steps[i] == init[i];
    }
    Plugin.SentIsFresh(w.scan.value, last.extract, last.requestId, last.now);
    ExpiredIff(After(steps + more).history.server, After(steps).scan.value.pending.value, at);
  }

  lemma SavedIdIsUsed(w: World)
    requires Sound(w)
    ensures w.scan.Some? && w.scan.value.pending.Some? ==> w.scan.value.pending.value.requestId in w.used
  {
    hide Kept, RepliesSound, ServerSound, WindowsSound;
  }

  lemma ExpiredIff(s: Server, e: Envelope, at: Time)
    ensures Answer(s, e, at) == Err(SignatureExpired) <==> at - e.sentAt > 300 || e.sentAt - at > 300
  {
    hide Computed, AcceptableWindow, InSequence;
  }

  /** What the plugin believes to be covered is covered. */
  lemma CursorBehindCoverage(steps: seq<Step>)
    ensures var w := After(steps);
      w.cursor.Some? ==>
        var covered := w.history.server.refunds.covered;
        covered.Some? && w.cursor.value <= covered.value.through
  {
    hide Next, ScanSound, SentSound;
    AlwaysSound(steps);
    assert After(steps).history.server.orders.coverage == After(steps).history.server.refunds;
  }

  /** The deliveries of a run, in order. */
  function DeliveriesOf(steps: seq<Step>): seq<Delivery> {
    if steps == [] then []
    else
      var step := steps[|steps| - 1];
      DeliveriesOf(steps[..|steps| - 1])
      + if step.Deliver? && Enabled(After(steps[..|steps| - 1]), step) then [Delivery(step.envelope, step.now)] else []
  }

  /** The server's history is that of the deliveries alone: what holds of every sequence of requests holds here. */
  lemma {:induction false} HistoryIsOfDeliveries(steps: seq<Step>)
    ensures After(steps).history == WooRuns.After(DeliveriesOf(steps))
  {
    if steps != [] {
      hide Extended, Started, Prepared, Settled, CursorAfter, ReplySet;
      var init, step := steps[..|steps| - 1], steps[|steps| - 1];
      HistoryIsOfDeliveries(init);
      var ds := DeliveriesOf(init);
      assert ds + [] == ds;
      if step.Deliver? && Enabled(After(init), step) {
        WooRuns.AppendDelivery(ds, Delivery(step.envelope, step.now));
      }
    }
  }

  /**
   The projections are what reading each computed page once, in order, makes of them, and no page of a scan is among
   those twice: requests that are lost, repeated or signed again under other ids add nothing.
   */
  lemma PagesAppliedOnce(steps: seq<Step>)
    ensures var h := After(steps).history;
      && h.server.entries == Read(h.log)
      && forall i, j :: 0 <= i < j < |h.log| ==>
           !(h.log[i].content.scan == h.log[j].content.scan && h.log[i].content.page == h.log[j].content.page)
  {
    HistoryIsOfDeliveries(steps);
    WooRuns.ProjectionsAreOfPages(DeliveriesOf(steps));
    WooRuns.EachPageComputedOnce(DeliveriesOf(steps));
  }

  /**
   When the final page of a scan is first read, coverage advances exactly if no record of the scan was rejected and
   the scan was started from the cursor, or nothing was covered, or what is covered reaches the last 35 days.
   A scan started from the cursor therefore always passes the contiguity test.
   */
  lemma ScanAdvancesIff(steps: seq<Step>, e: Envelope, now: Time)
    requires e in After(steps).sent && e.content.finalPage
    requires Computes(After(steps).history.server, Delivery(e, now))
    ensures var w, log := After(steps), Extended(After(steps).history, Delivery(e, now)).log;
      && 1 <= e.content.page <= |log|
      && var covered := w.history.server.refunds.covered;
         log[|log| - 1].advanced <==>
           && (forall i :: |log| - e.content.page <= i < |log| ==> !AnyRejected(log[i].results))
           && (e.content.scan in w.deltas || covered.None?
               || e.content.window.through - 35 * DAY <= covered.value.through)
  {
    hide Next, ScanSound, SentSound, RepliesSound, ServerSound, AnyRejected, Received, HullOf, Windows, InProgress,
      PagesSound, ReceiptsSound, LogStored;
    AlwaysSound(steps);
    var w, d := After(steps), Delivery(e, now);
    ExtendedKept(w.history, d);
    CursorSteps(w.history.server, d);
    var log := Extended(w.history, d).log;
    assert log[|log| - 1] == PageOf(w.history.server, d);
    var pages := Tail(log, e.content.page);
    assert forall i :: |log| - e.content.page <= i < |log| ==> log[i] == pages[i - (|log| - e.content.page)];
    assert forall k :: 0 <= k < |pages| ==> pages[k] == log[|log| - e.content.page + k];
  }

  // ----- coverage under clocks that do not run backwards -----

  function LastStart(steps: seq<Step>): Option<Time> {
    if steps == [] then None
    else if steps[|steps| - 1].Start? then Some(steps[|steps| - 1].now)
    else LastStart(steps[..|steps| - 1])
  }

  function LastDelivery(steps: seq<Step>): Option<Time> {
    if steps == [] then None
    else if steps[|steps| - 1].Deliver? then Some(steps[|steps| - 1].now)
    else LastDelivery(steps[..|steps| - 1])
  }

  predicate NotBefore(now: Time, earlier: Option<Time>) { earlier.Some? ==> earlier.value <= now }

  /** Scans start in the order of the shop's clock, and requests arrive in the order of the server's. */
  predicate ClocksRun(steps: seq<Step>) {
    steps != [] ==>
      var init, step := steps[..|steps| - 1], steps[|steps| - 1];
      && ClocksRun(init)
      && (step.Start? ==> NotBefore(step.now, LastStart(init)))
      && (step.Deliver? ==> NotBefore(step.now, LastDelivery(init)))
  }

  /** What is covered begins no later than this. */
  predicate CoveredSince(s: Server, t: Time) {
    s.orders.coverage.covered.Some? && s.orders.coverage.covered.value.from <= t
  }

  /** A window ends before the last start, and one that began from the cursor reaches what is covered. */
  predicate WindowTimely(s: Server, window: Interval, delta: bool, started: Option<Time>) {
    && started.Some? && window.through <= started.value - 2 * MINUTE
    && (delta ==> CoveredSince(s, window.through))
  }

  ghost predicate Timely(w: World, started: Option<Time>, delivered: Option<Time>) {
    var s := w.history.server;
    && (s.orders.coverage.covered.Some? ==>
          delivered.Some? && CoveredSince(s, delivered.value + FUTURE_SKEW - 35 * DAY))
    && (w.cursor.Some? ==>
          started.Some? && w.cursor.value <= started.value - 2 * MINUTE && CoveredSince(s, w.cursor.value))
    && (forall e :: e in w.sent ==> WindowTimely(s, e.content.window, e.content.scan in w.deltas, started))
    && (w.scan.Some? ==> WindowTimely(s, w.scan.value.window, w.scan.value.scan in w.deltas, started))
    && (forall key :: key in s.pages && s.pages[key].result.coverageAdvanced ==>
          CoveredSince(s, s.pages[key].content.window.through))
    && AllReachBack(w.history.log)
  }

  /** The pages after a request, and whether each advanced. */
  lemma AdvancesAfter(s: Server, d: Delivery)
    ensures var t := Received(s, d.envelope, d.now);
      forall key :: key in t.pages ==>
        || (key in s.pages && t.pages[key] == s.pages[key])
        || (Computes(s, d) && t.pages[key].content == d.envelope.content
            && t.pages[key].result.coverageAdvanced == PageOf(s, d).advanced)
  {
    hide WithRecords, ResultsOf, AnyRejected, AcceptableWindow, InSequence, CoverageAfter, Advances, Entered;
  }

  /** Every page that advances coverage reaches back to it. */
  lemma DeliveryReachesBack(w: World, e: Envelope, now: Time, started: Option<Time>, delivered: Option<Time>)
    requires Sound(w) && Timely(w, started, delivered) && e in w.sent && NotBefore(now, delivered)
    requires Computes(w.history.server, Delivery(e, now)) && PageOf(w.history.server, Delivery(e, now)).advanced
    ensures ReachesBack(w.history.server.orders.coverage.covered, e.content.window)
    ensures w.history.server.orders.coverage.covered.None? ==> e.content.window.from <= now + FUTURE_SKEW - 35 * DAY
  {
    hide Kept, SentSound, ServerSound, RepliesSound, ScanSound, PageOf, Computes, Received;
    CoveredAfter(w.history.server, Delivery(e, now));
    assert WindowSound(w.history.server, e.content.window, e.content.scan in w.deltas);
    assert WindowTimely(w.history.server, e.content.window, e.content.scan in w.deltas, started);
  }

  lemma CoveredSinceStays(s: Server, d: Delivery, t: Time)
    requires CoveredSince(s, t)
    ensures CoveredSince(Received(s, d.envelope, d.now), t)
  {
    hide Received, Computes, PageOf, AcceptableWindow;
    CoveredAfter(s, d);
  }

  lemma DeliverTimely(w: World, step: Step, started: Option<Time>, delivered: Option<Time>)
    requires Sound(w) && Timely(w, started, delivered) && step.Deliver? && Enabled(w, step)
    requires NotBefore(step.now, delivered)
    ensures Timely(Next(w, step), started, Some(step.now))
  {
    hide Kept, SentSound, ServerSound, RepliesSound, ScanSound, WindowsSound, PageOf, Computes, Received, AllReachBack,
      ReplySet, ReachesBack;
    var s, d := w.history.server, Delivery(step.envelope, step.now);
    CoveredAfter(s, d);
    AdvancesAfter(s, d);
    forall t | CoveredSince(s, t) ensures CoveredSince(Received(s, d.envelope, d.now), t) {
      CoveredSinceStays(s, d, t);
    }
    if Computes(s, d) {
      if PageOf(s, d).advanced { DeliveryReachesBack(w, step.envelope, step.now, started, delivered); }
      ReachBackAppend(w.history.log, PageOf(s, d));
    }
  }

  lemma StartTimely(w: World, step: Step, started: Option<Time>, delivered: Option<Time>)
    requires Sound(w) && Timely(w, started, delivered) && step.Start? && Enabled(w, step)
    requires NotBefore(step.now, started)
    ensures Timely(Next(w, step), Some(step.now), delivered)
  {
    hide Kept, AllReachBack, ServerSound, RepliesSound, WindowsSound;
  }

  lemma SendTimely(w: World, step: Step, started: Option<Time>, delivered: Option<Time>)
    requires Sound(w) && Timely(w, started, delivered) && step.Send? && Enabled(w, step)
    ensures Timely(Next(w, step), started, delivered)
  {
    hide Kept, AllReachBack, ServerSound, RepliesSound, WindowsSound, Fill, Take, Rest;
  }

  lemma ReceiveTimely(w: World, step: Step, started: Option<Time>, delivered: Option<Time>)
    requires Sound(w) && Timely(w, started, delivered) && step.Receive? && Enabled(w, step)
    ensures Timely(Next(w, step), started, delivered)
  {
    hide Kept, AllReachBack, ServerSound, WindowsSound;
  }

  lemma {:induction false} AlwaysTimely(steps: seq<Step>)
    requires ClocksRun(steps)
    ensures Timely(After(steps), LastStart(steps), LastDelivery(steps))
  {
    if steps != [] {
      hide Sound, Timely, Next;
      var init, step := steps[..|steps| - 1], steps[|steps| - 1];
      AlwaysSound(init);
      AlwaysTimely(init);
      StepTimely(After(init), step, LastStart(init), LastDelivery(init));
    }
  }

  lemma StepTimely(w: World, step: Step, started: Option<Time>, delivered: Option<Time>)
    requires Sound(w) && Timely(w, started, delivered)
    requires step.Start? ==> NotBefore(step.now, started)
    requires step.Deliver? ==> NotBefore(step.now, delivered)
    ensures Timely(Next(w, step), if step.Start? then Some(step.now) else started,
                   if step.Deliver? then Some(step.now) else delivered)
  {
    if Enabled(w, step) {
      hide Sound, AllReachBack;
      match step {
        case Start(_, _, _, _) => StartTimely(w, step, started, delivered);
        case Send(_, _, _) => SendTimely(w, step, started, delivered);
        case Deliver(_, _) => DeliverTimely(w, step, started, delivered);
        case Receive(_) => ReceiveTimely(w, step, started, delivered);
        case Retry =>
      }
    }
  }

  /**
   While neither clock runs backwards, in every state of every run an instant is covered if and only if a whole scan
   looked at it, however pages of abandoned scans are delayed. The two clocks need not agree with each other.
   */
  lemma CoverageIsUnion(steps: seq<Step>)
    requires ClocksRun(steps)
    ensures AlwaysUnion(DeliveriesOf(steps))
    ensures IsUnion(After(steps).history.server.refunds.covered, Windows(After(steps).history.log))
  {
    AlwaysTimely(steps);
    HistoryIsOfDeliveries(steps);
    var ds := DeliveriesOf(steps);
    CoverageIsUnionIff(ds);
    assert ds[..|ds|] == ds;
  }

  // ----- a scan that cannot finish -----

  /** The server read the final page without advancing coverage, and the plugin waits for it to be advanced. */
  predicate Stuck(w: World) {
    && w.scan.Some? && w.scan.value.pending.Some?
    && var c := w.scan.value.pending.value.content;
       && c.finalPage && KeyOf(c) in w.history.server.pages && w.history.server.pages[KeyOf(c)].content == c
       && !w.history.server.pages[KeyOf(c)].result.coverageAdvanced
  }

  /** This happens to every full scan that begins more than 35 days after what is covered. */
  lemma GapStops(w: World, now: Time)
    requires Sound(w) && w.scan.Some? && w.scan.value.pending.Some?
    requires w.scan.value.pending.value.content.finalPage && w.scan.value.scan !in w.deltas
    requires var covered := w.history.server.orders.coverage.covered;
      covered.Some? && covered.value.through < w.scan.value.window.through - 35 * DAY
    requires Computes(w.history.server, Delivery(w.scan.value.pending.value, now))
    ensures Stuck(Next(w, Deliver(w.scan.value.pending.value, now)))
  {
    hide Kept, SentSound, ServerSound, RepliesSound, InSequence, AcceptableWindow;
    CursorSteps(w.history.server, Delivery(w.scan.value.pending.value, now));
  }

  lemma StuckStays(w: World, step: Step)
    requires Sound(w) && Stuck(w) && step != Retry
    ensures Stuck(Next(w, step)) && Next(w, step).cursor == w.cursor
    ensures Next(w, step).scan.value.scan == w.scan.value.scan
    ensures step.Receive? && Enabled(w, step) && step.reply.Some?
            && Acknowledges(step.reply.value, w.scan.value.pending.value)
      ==> Next(w, step).scan.value.attempt == 1
  {
    hide Kept, Received, Answer, Computes, PageOf, SentSound;
    if step.Deliver? { ServerGrows(w.history.server, step.envelope, step.now); }
  }

  /**
   Such a scan never finishes, whatever is resent: the stored page repeats its answer, and because an acknowledged
   page resets the count of attempts, resending is never given up either. Only a retry by the shop's administrator
   ends it.
   */
  lemma {:induction false} StuckUntilRetry(steps: seq<Step>, more: seq<Step>)
    requires Stuck(After(steps)) && Retry !in more
    ensures Stuck(After(steps + more)) && After(steps + more).cursor == After(steps).cursor
    ensures After(steps + more).scan.value.scan == After(steps).scan.value.scan
  {
    if more == [] {
      assert steps + more == steps;
    } else {
      hide Next, Stuck, Sound;
      var init := more[..|more| - 1];
      StuckUntilRetry(steps, init);
      assert steps + more == (steps + init) + [more[|more| - 1]];
      assert (steps + more)[..|steps + init|] == steps + init;
      AlwaysSound(steps + init);
      StuckStays(After(steps + init), more[|more| - 1]);
    }
  }

  // ----- a gap that never closes -----

  lemma LateDelivery(w: World, step: Step)
    requires w.history.server.orders.coverage.covered.Some?
    requires step.Deliver? ==> w.history.server.orders.coverage.covered.value.through < step.now - 36 * DAY
    ensures Next(w, step).history.server.orders.coverage.covered == w.history.server.orders.coverage.covered
  {
    hide Extended, Prepared, Settled, CursorAfter, Started, ReplySet;
    if step.Deliver? && Enabled(w, step) {
      DeliveredHistory(w.history, step.envelope, step.now);
      WooRuns.LateRequest(w.history.server, Delivery(step.envelope, step.now));
    }
  }

  /** The last delivery of a longer run is no earlier. */
  lemma {:induction false} DeliveriesLater(steps: seq<Step>, more: seq<Step>)
    requires ClocksRun(steps + more) && LastDelivery(steps).Some?
    ensures LastDelivery(steps + more).Some? && LastDelivery(steps).value <= LastDelivery(steps + more).value
  {
    assert steps + [] == steps;
    if more != [] {
      var init := more[..|more| - 1];
      assert (steps + more)[..|steps + more| - 1] == steps + init;
      DeliveriesLater(steps, init);
    }
  }

  /**
   Once what is covered ends more than 36 days before a request arrives, it never changes again: whatever is sent,
   repeated or started anew, manual retries included, no window that the server accepts reaches back to it.
   */
  lemma {:induction false} GapNeverCloses(steps: seq<Step>, more: seq<Step>)
    requires ClocksRun(steps + more) && LastDelivery(steps).Some?
    requires var covered := After(steps).history.server.orders.coverage.covered;
      covered.Some? && covered.value.through < LastDelivery(steps).value - 36 * DAY
    ensures After(steps + more).history.server.orders.coverage.covered
         == After(steps).history.server.orders.coverage.covered
  {
    hide Next, ClocksRun, LastDelivery, After;
    assert steps + [] == steps;
    if more != [] {
      var init, step := more[..|more| - 1], more[|more| - 1];
      assert steps + more == (steps + init) + [step];
      AppendStep(steps + init, step);
      StepInTime(steps + init, step);
      GapNeverCloses(steps, init);
      DeliveriesLater(steps, init);
      LateDelivery(After(steps + init), step);
    }
  }

  lemma StepInTime(steps: seq<Step>, step: Step)
    requires ClocksRun(steps + [step])
    ensures ClocksRun(steps) && (step.Deliver? ==> NotBefore(step.now, LastDelivery(steps)))
  {
    assert (steps + [step])[..|steps|] == steps;
  }

  // ----- a run that gets stuck -----

  function NoOrders(window: Interval): seq<OrderId> { [] }

  function NoFacts(id: OrderId): Option<seq<Record>> { None }

  /** The one page of a full scan of a shop without orders. */
  function EmptyPage(now: Time, id: Uuid, requestId: Uuid): Envelope {
    Envelope(requestId, now, Content(id, 1, WindowFor(None, true, now), true, []))
  }

  function ScanSteps(now: Time, id: Uuid, requestId: Uuid): seq<Step> {
    [Start(true, now, id, NoOrders), Send(NoFacts, requestId, now), Deliver(EmptyPage(now, id, requestId), now)]
  }

  lemma AppendStep(steps: seq<Step>, step: Step)
    ensures After(steps + [step]) == Next(After(steps), step)
  {
    assert (steps + [step])[..|steps|] == steps;
  }

  ghost predicate Idle(w: World, id: Uuid, requestId: Uuid) {
    && w.scan.None? && w.history.server.orders.scan.None?
    && id !in w.used && requestId !in w.used && id != requestId
    && PageKey(id, 1) !in w.history.server.pages && requestId !in w.history.server.receipts
    && (forall m :: m in w.history.server.counts ==> w.history.server.counts[m] < QUOTA)
  }

  /** The page of an empty scan is saved, sent and computed; it advances coverage if it is contiguous. */
  lemma EmptyScan(steps: seq<Step>, now: Time, id: Uuid, requestId: Uuid)
    requires Idle(After(steps), id, requestId)
    ensures var w, t, e := After(steps), After(steps + ScanSteps(now, id, requestId)), EmptyPage(now, id, requestId);
      && var o := w.history.server.orders.coverage;
         && t.scan == Some(Scan(id, [], 0, 1, e.content.window, [], Some(e), 0))
         && t.cursor == w.cursor && t.used == w.used + {id, requestId}
         && t.history.server == Received(w.history.server, e, now)
         && Ack(requestId, [], Contiguous(o.covered, e.content.window), now) in t.replies
         && Answer(w.history.server, e, now) == Ok(Ack(requestId, [], Contiguous(o.covered, e.content.window), now))
  {
    hide Extended, Received, Answer;
    var w, e := After(steps), EmptyPage(now, id, requestId);
    var start, send := Start(true, now, id, NoOrders), Send(NoFacts, requestId, now);
    AppendStep(steps, start);
    AppendStep(steps + [start], send);
    AppendStep(steps + [start] + [send], Deliver(e, now));
    assert steps + ScanSteps(now, id, requestId) == steps + [start] + [send] + [Deliver(e, now)];
    assert Next(w, start).scan == Some(Scan(id, [], 0, 1, e.content.window, [], None, 0));
    assert Next(Next(w, start), send).scan == Some(Scan(id, [], 0, 1, e.content.window, [], Some(e), 0));
    DeliveredHistory(w.history, e, now);
    EmptyPageAnswer(w.history.server, now, id, requestId);
  }

  lemma DeliveredHistory(h: History, e: Envelope, now: Time)
    ensures Extended(h, Delivery(e, now)).server == Received(h.server, e, now)
  {
  }

  lemma EmptyPageAnswer(s: Server, now: Time, id: Uuid, requestId: Uuid)
    requires s.orders.scan.None? && PageKey(id, 1) !in s.pages && requestId !in s.receipts && !Limited(s, now)
    ensures var e := EmptyPage(now, id, requestId);
      && Answer(s, e, now) == Ok(Ack(requestId, [], Contiguous(s.orders.coverage.covered, e.content.window), now))
      && var t := Received(s, e, now);
         && t.orders.scan.None?
         && t.pages == s.pages[PageKey(id, 1) := BatchPage(e.content, Answer(s, e, now).value)]
         && t.receipts == s.receipts[requestId := Receipt(e, Answer(s, e, now).value)]
         && t.counts == Counted(s.counts, now)
         && (Contiguous(s.orders.coverage.covered, e.content.window) ==>
               t.orders.coverage.covered == Some(Hull(s.orders.coverage.covered, e.content.window)))
  {
    hide Hull;
    NothingRejected();
  }

  lemma NothingRejected()
    ensures !AnyRejected([])
  {
  }

  lemma FirstAcknowledged(steps: seq<Step>, now: Time, ack: Ack)
    requires ack == Ack(2, [], true, now)
    requires var w, e := After(steps), EmptyPage(now, 1, 2);
      && w.scan == Some(Scan(1, [], 0, 1, e.content.window, [], Some(e), 0)) && ack in w.replies
    ensures After(steps + [Receive(Some(ack))])
         == After(steps).(scan := None, cursor := Some(EmptyPage(now, 1, 2).content.window.through))
  {
    AppendStep(steps, Receive(Some(ack)));
    assert Acknowledges(ack, EmptyPage(now, 1, 2));
  }

  lemma GapIsStuck(steps: seq<Step>, now: Time)
    requires var w, e := After(steps), EmptyPage(now, 3, 4);
      && w.scan == Some(Scan(3, [], 0, 1, e.content.window, [], Some(e), 0))
      && PageKey(3, 1) in w.history.server.pages && w.history.server.pages[PageKey(3, 1)].content == e.content
      && !w.history.server.pages[PageKey(3, 1)].result.coverageAdvanced
    ensures Stuck(After(steps))
  {
  }

  lemma AppendInTime(steps: seq<Step>, step: Step)
    requires ClocksRun(steps)
    requires step.Start? ==> NotBefore(step.now, LastStart(steps))
    requires step.Deliver? ==> NotBefore(step.now, LastDelivery(steps))
    ensures var all := steps + [step];
      && ClocksRun(all)
      && LastStart(all) == (if step.Start? then Some(step.now) else LastStart(steps))
      && LastDelivery(all) == (if step.Deliver? then Some(step.now) else LastDelivery(steps))
  {
    assert (steps + [step])[..|steps|] == steps;
  }

  lemma ScanInTime(steps: seq<Step>, now: Time, id: Uuid, requestId: Uuid)
    requires ClocksRun(steps) && NotBefore(now, LastStart(steps)) && NotBefore(now, LastDelivery(steps))
    ensures var all := steps + ScanSteps(now, id, requestId);
      ClocksRun(all) && LastStart(all) == Some(now) && LastDelivery(all) == Some(now)
  {
    var scan := ScanSteps(now, id, requestId);
    AppendInTime(steps, scan[0]);
    AppendInTime(steps + [scan[0]], scan[1]);
    AppendInTime(steps + [scan[0]] + [scan[1]], scan[2]);
    assert steps + scan == steps + [scan[0]] + [scan[1]] + [scan[2]];
  }

  lemma TwoScansInTime(early: Time, late: Time, ack: Ack)
    requires early <= late
    ensures ClocksRun([] + ScanSteps(early, 1, 2) + [Receive(Some(ack))] + ScanSteps(late, 3, 4))
  {
    hide ScanSteps;
    ScanInTime([], early, 1, 2);
    AppendInTime([] + ScanSteps(early, 1, 2), Receive(Some(ack)));
    ScanInTime([] + ScanSteps(early, 1, 2) + [Receive(Some(ack))], late, 3, 4);
  }

  const FIRST_ACK := Ack(2, [], true, 0)

  /** A first scan at time zero, acknowledged. */
  function FirstRound(): seq<Step> { [] + ScanSteps(0, 1, 2) + [Receive(Some(FIRST_ACK))] }

  lemma FirstRoundRuns()
    ensures var w := After(FirstRound());
      && Idle(w, 3, 4)
      && w.history.server.orders.coverage.covered == Some(WindowFor(None, true, 0))
  {
    hide Next, Received, Answer, Extended, ScanSteps, ReplySet, After;
    NothingYet();
    EmptyScan([], 0, 1, 2);
    EmptyPageAnswer(NEW_SERVER, 0, 1, 2);
    FirstAcknowledged([] + ScanSteps(0, 1, 2), 0, FIRST_ACK);
  }

  lemma NothingYet()
    ensures After([]) == PAIRED
  {
  }

  const LATE: Time := 100 * DAY

  lemma SecondRoundSticks()
    ensures Stuck(After(FirstRound() + ScanSteps(LATE, 3, 4)))
  {
    hide Next, Received, Answer, Extended, ScanSteps, ReplySet, After, FirstRound;
    FirstRoundRuns();
    EmptyScan(FirstRound(), LATE, 3, 4);
    EmptyPageAnswer(After(FirstRound()).history.server, LATE, 3, 4);
    GapIsStuck(FirstRound() + ScanSteps(LATE, 3, 4), LATE);
  }

  /** A run that gets stuck: a shop is scanned once, and then not again for a hundred days. */
  lemma StuckHappens()
    ensures exists steps :: ClocksRun(steps) && Stuck(After(steps))
  {
    hide After, ScanSteps, Stuck, ClocksRun;
    SecondRoundSticks();
    TwoScansInTime(0, LATE, FIRST_ACK);
  }
}
