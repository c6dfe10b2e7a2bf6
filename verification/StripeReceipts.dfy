/** What becomes of a webhook receipt in every run: normalized when it was read, and failed when it was given up. */
module StripeReceipts {
  import opened Wrappers
  import opened Domain
  import opened Projections
  import opened StripeWorker
  import opened StripeRuns
  import opened StripeCoverage

  // ----- the receipt and its row -----

  /** What the status of a receipt says of its row, and the row of the receipt. */
  predicate ReceiptSound(s: State, id: ReceiptId) {
    id in s.receipts && (ReceiptOf(id) !in s.outbox <==> s.receipts[id] == Ignored)
    && (ReceiptOf(id) in s.outbox ==>
          match s.outbox[ReceiptOf(id)].status
          case RowPending => s.receipts[id] == ReceiptPending
          case Queued => s.receipts[id] == ReceiptPending
          case Done => s.receipts[id] == Normalized || (s.receipts[id] == ReceiptPending && !s.orgActive)
          case Dead => s.receipts[id] == ReceiptFailed)
  }

  ghost predicate ReceiptsSound(s: State) { forall id :: id in s.receipts ==> ReceiptSound(s, id) }

  lemma OtherReceipt(s: State, t: State, id: ReceiptId)
    requires ReceiptSound(s, id) && (t.orgActive ==> s.orgActive)
    requires id in t.receipts && t.receipts[id] == s.receipts[id]
    requires ReceiptOf(id) in t.outbox <==> ReceiptOf(id) in s.outbox
    requires ReceiptOf(id) in s.outbox ==> t.outbox[ReceiptOf(id)].status == s.outbox[ReceiptOf(id)].status
    ensures ReceiptSound(t, id)
  {
  }

  /** Handling a task touches no receipt but its own, and no row of a receipt. */
  lemma HandledReceipts(s: State, task: Task, d: Delivery)
    requires Handled(s, task, d).Ok?
    ensures var t := Handled(s, task, d).value;
      && t.receipts.Keys == s.receipts.Keys && t.orgActive == s.orgActive
      && (forall id :: id in s.receipts && task != ProcessReceipt(id) ==> t.receipts[id] == s.receipts[id])
      && (forall id :: ReceiptOf(id) in t.outbox <==> ReceiptOf(id) in s.outbox)
      && (forall id :: ReceiptOf(id) in s.outbox ==> t.outbox[ReceiptOf(id)] == s.outbox[ReceiptOf(id)])
      && (task.ProcessReceipt? ==> task.receipt in s.receipts)
      && (task.ProcessReceipt? && !StripeWorker.Settled(s.receipts[task.receipt]) ==>
            && t.receipts[task.receipt] == Normalized
            && d.response.Page? && StoredAll(s.entries, d.response.facts) == Ok(t.entries))
      && (task.ProcessReceipt? && StripeWorker.Settled(s.receipts[task.receipt]) ==> t.receipts == s.receipts)
  {
    hide StoredAll, Readable, WindowFor, Turned, MayExtend;
  }

  lemma SecondReceipts(s: State, key: TaskKey, f: Failure, now: Time, jitter: nat)
    requires key in s.outbox
    ensures var t, task := SecondCommit(s, key, f, now, jitter), s.outbox[key].task;
      && t.receipts.Keys == s.receipts.Keys && t.orgActive == s.orgActive && t.outbox.Keys == s.outbox.Keys
      && (t.outbox[key].status == Dead || t.outbox[key].status == RowPending)
      && (forall k :: k in s.outbox && k != key ==> t.outbox[k] == s.outbox[k])
      && (forall id :: id in s.receipts ==>
            t.receipts[id] == if t.outbox[key].status == Dead && task == ProcessReceipt(id) then ReceiptFailed
                              else s.receipts[id])
  {
    hide Delay, KnowsConnector;
  }

  lemma FirstReceipts(s: State, key: TaskKey, d: Delivery)
    requires key in s.outbox
    ensures var (t, failure) := FirstCommit(s, key, d);
      var task := s.outbox[key].task;
      && t.receipts.Keys == s.receipts.Keys && t.orgActive == s.orgActive
      && (failure.Some? ==> t.receipts == s.receipts && t.outbox == s.outbox)
      && (failure.None? ==>
            && key in t.outbox && t.outbox[key].status == Done
            && (forall k: TaskKey :: k.ReceiptOf? ==> (k in t.outbox <==> k in s.outbox))
            && (forall k: TaskKey :: k.ReceiptOf? && k != key && k in s.outbox ==> t.outbox[k] == s.outbox[k])
            && (forall id :: id in s.receipts && task != ProcessReceipt(id) ==> t.receipts[id] == s.receipts[id])
            && (if s.orgActive then
                  task.ProcessReceipt? ==>
                    && task.receipt in s.receipts
                    && if StripeWorker.Settled(s.receipts[task.receipt]) then t.receipts == s.receipts
                       else (t.receipts[task.receipt] == Normalized && RunsWorkNow(s, task) && d.response.Page?
                             && StoredAll(s.entries, d.response.facts) == Ok(t.entries))
                else t.receipts == s.receipts))
  {
    hide Handled, Refreshed, StoredAll;
    var task := s.outbox[key].task;
    var c := if UsesCredentials(s, task) then Refreshed(s.connector, d.now, d.exchange) else Ok(s.connector);
    if s.orgActive && c.Ok? && Handled(s.(connector := c.value), task, d).Ok? {
      var t := Handled(s.(connector := c.value), task, d).value;
      HandledReceipts(s.(connector := c.value), task, d);
      forall k: TaskKey | k.ReceiptOf?
        ensures k in t.outbox <==> k in s.outbox
        ensures k in s.outbox ==> t.outbox[k] == s.outbox[k]
      {
        assert k == ReceiptOf(k.receipt);
      }
    }
  }

  predicate RunsWorkNow(s: State, task: Task) { s.orgActive && UsesCredentials(s, task) }

  lemma DeliveredReceipts(s: State, key: TaskKey, d: Delivery)
    requires KeysSound(s) && ReceiptsSound(s)
    ensures ReceiptsSound(Delivered(s, key, d)) && Delivered(s, key, d).receipts.Keys == s.receipts.Keys
  {
    if Deliverable(s, key, d.now) {
      hide FirstCommit, SecondCommit, KeysSound, StoredAll;
      var (t, failure) := FirstCommit(s, key, d);
      FirstReceipts(s, key, d);
      TaskOfKey(s, key);
      if failure.Some? { SecondReceipts(t, key, failure.value, d.later, d.jitter); }
      var u := Delivered(s, key, d);
      forall id | id in u.receipts ensures ReceiptSound(u, id) {
        assert ReceiptSound(s, id);
        if key != ReceiptOf(id) { OtherReceipt(s, u, id); } else { OwnReceipt(s, key, d, id); }
      }
    }
  }

  lemma OwnReceipt(s: State, key: TaskKey, d: Delivery, id: ReceiptId)
    requires KeysSound(s) && ReceiptSound(s, id) && key == ReceiptOf(id) && Deliverable(s, key, d.now)
    ensures ReceiptSound(Delivered(s, key, d), id)
  {
    hide FirstCommit, SecondCommit, KeysSound, StoredAll;
    var (t, failure) := FirstCommit(s, key, d);
    FirstReceipts(s, key, d);
    TaskOfKey(s, key);
    if failure.Some? { SecondReceipts(t, key, failure.value, d.later, d.jitter); }
  }

  lemma TaskOfKey(s: State, key: TaskKey)
    requires KeysSound(s) && key in s.outbox
    ensures forall id :: s.outbox[key].task == ProcessReceipt(id) <==> key == ReceiptOf(id)
  {
    assert RowSound(s.scans, s.receipts, key, s.outbox[key]);
  }

  lemma NextReceipts(w: World, step: Step)
    requires Queueing(w.state) && ReceiptsSound(w.state)
    ensures ReceiptsSound(Next(w, step).state)
  {
    if Enabled(w, step) {
      hide Delivered, TrailsAfter, IssuedAfter, ScansSound, LivePages, Scheduled;
      var s, t := w.state, Next(w, step).state;
      match step {
        case Deliver(key, d) => DeliveredReceipts(s, key, d);
        case Schedule(now) => ScheduledReceipts(s, now);
        case Webhook(receipt, supported, now) => WebhookReceipts(s, receipt, supported, now);
        case _ => forall id | id in s.receipts ensures ReceiptSound(t, id) { OtherStep(w, step, id); }
      }
    }
  }

  lemma ScheduledReceipts(s: State, now: Time)
    requires ReceiptsSound(s)
    ensures ReceiptsSound(Scheduled(s, now))
  {
    forall id | id in s.receipts ensures ReceiptSound(Scheduled(s, now), id) { OtherReceipt(s, Scheduled(s, now), id); }
  }

  lemma WebhookReceipts(s: State, receipt: ReceiptId, supported: bool, now: Time)
    requires KeysSound(s) && ReceiptsSound(s) && receipt !in s.receipts
    ensures ReceiptsSound(Received(s, receipt, supported, now))
  {
    var t := Received(s, receipt, supported, now);
    assert ReceiptOf(receipt) !in s.outbox;
    forall id | id in t.receipts ensures ReceiptSound(t, id) {
      if id != receipt { OtherReceipt(s, t, id); }
    }
  }

  lemma OtherStep(w: World, step: Step, id: ReceiptId)
    requires KeysSound(w.state) && ReceiptsSound(w.state) && Enabled(w, step) && id in w.state.receipts
    requires step.Dispatch? || step.Disconnect? || step.Deactivate?
    ensures ReceiptSound(Next(w, step).state, id)
  {
    hide KeysSound;
    assert ReceiptSound(w.state, id);
  }

  lemma {:induction false} AlwaysReceiptsSound(tokens: Tokens, now: Time, steps: seq<Step>)
    ensures ReceiptsSound(After(Start(tokens, now), steps).state)
  {
    if steps != [] {
      hide Next, Queueing, ReceiptSound;
      AlwaysReceiptsSound(tokens, now, steps[..|steps| - 1]);
      AlwaysQueueing(tokens, now, steps[..|steps| - 1]);
      NextReceipts(After(Start(tokens, now), steps[..|steps| - 1]), steps[|steps| - 1]);
    }
  }

  /**
   In every run a receipt is failed exactly when its row was dead-lettered, and ignored exactly when it never had one. A
   row is done when its receipt was normalized, or when the organization was deactivated first.
   */
  lemma ReceiptFollowsRow(tokens: Tokens, now: Time, steps: seq<Step>, id: ReceiptId)
    requires id in After(Start(tokens, now), steps).state.receipts
    ensures var s := After(Start(tokens, now), steps).state;
      var status, row := s.receipts[id], ReceiptOf(id);
      && (status == Ignored <==> row !in s.outbox)
      && (status == ReceiptFailed <==> row in s.outbox && s.outbox[row].status == Dead)
      && (status == Normalized ==> row in s.outbox && s.outbox[row].status == Done)
      && (row in s.outbox && s.outbox[row].status == Done ==> status == Normalized || !s.orgActive)
      && (row in s.outbox && (s.outbox[row].status == RowPending || s.outbox[row].status == Queued) ==>
            status == ReceiptPending)
  {
    hide Next;
    AlwaysReceiptsSound(tokens, now, steps);
    assert ReceiptSound(After(Start(tokens, now), steps).state, id);
  }

  // ----- a normalized receipt was read -----

  /** The delivery of the receipt's row read a page, and stored all of it. */
  ghost predicate ReadAt(start: World, steps: seq<Step>, k: nat, id: ReceiptId) {
    && k < |steps| && steps[k].Deliver? && steps[k].key == ReceiptOf(id) && steps[k].d.response.Page?
    && var w, t := After(start, steps[..k]), After(start, steps[..k + 1]);
       Enabled(w, steps[k]) && StoredAll(w.state.entries, steps[k].d.response.facts) == Ok(t.state.entries)
  }

  lemma BecomesNormalized(w: World, step: Step, id: ReceiptId)
    requires Queueing(w.state) && id in Next(w, step).state.receipts
    requires Next(w, step).state.receipts[id] == Normalized
    requires id in w.state.receipts ==> w.state.receipts[id] != Normalized
    ensures step.Deliver? && step.key == ReceiptOf(id) && step.d.response.Page? && Enabled(w, step)
    ensures StoredAll(w.state.entries, step.d.response.facts) == Ok(Next(w, step).state.entries)
  {
    hide Delivered, TrailsAfter, IssuedAfter, ScansSound, LivePages, KeysSound, StoredAll;
    if step.Deliver? && Enabled(w, step) { DeliveryNormalizes(w.state, step.key, step.d, id); }
  }

  lemma DeliveryNormalizes(s: State, key: TaskKey, d: Delivery, id: ReceiptId)
    requires KeysSound(s) && id in Delivered(s, key, d).receipts && Delivered(s, key, d).receipts[id] == Normalized
    requires id in s.receipts ==> s.receipts[id] != Normalized
    ensures key == ReceiptOf(id) && d.response.Page?
    ensures StoredAll(s.entries, d.response.facts) == Ok(Delivered(s, key, d).entries)
  {
    hide FirstCommit, SecondCommit, KeysSound, StoredAll;
    if Deliverable(s, key, d.now) {
      var (t, failure) := FirstCommit(s, key, d);
      FirstReceipts(s, key, d);
      TaskOfKey(s, key);
      if failure.Some? { SecondReceipts(t, key, failure.value, d.later, d.jitter); }
    }
  }

  lemma {:induction false} NormalizedWasRead(tokens: Tokens, now: Time, steps: seq<Step>, id: ReceiptId)
      returns (k: nat)
    requires var s := After(Start(tokens, now), steps).state; id in s.receipts && s.receipts[id] == Normalized
    ensures ReadAt(Start(tokens, now), steps, k, id)
  {
    hide Next, Queueing;
    if steps != [] {
      var start, init := Start(tokens, now), steps[..|steps| - 1];
      var w := After(start, init);
      if id in w.state.receipts && w.state.receipts[id] == Normalized {
        k := NormalizedWasRead(tokens, now, init, id);
        assert init[..k] == steps[..k] && init[..k + 1] == steps[..k + 1];
      } else {
        AlwaysQueueing(tokens, now, init);
        BecomesNormalized(w, steps[|steps| - 1], id);
        k := |steps| - 1;
        assert steps[..k + 1] == steps;
      }
    }
  }

  lemma NextKeepsReflected(w: World, step: Step, facts: seq<Fact>)
    requires AllReflected(w.state.entries, facts, w.clock) && InTime(w, step)
    ensures AllReflected(Next(w, step).state.entries, facts, Next(w, step).clock)
  {
    hide Delivered, TrailsAfter, IssuedAfter, AllReflected, StoredAll;
    var t := Next(w, step);
    if step.Deliver? && Enabled(w, step) {
      EntriesAfter(w.state, step.key, step.d);
      if t.state.entries != w.state.entries {
        LaterReadsKeepAll(w.state.entries, facts, step.d.response.facts, w.clock, t.clock);
      } else {
        ReflectedLater(w.state.entries, facts, w.clock, t.clock);
      }
    } else {
      ReflectedLater(w.state.entries, facts, w.clock, t.clock);
    }
  }

  lemma {:induction false} StaysReflected(start: World, steps: seq<Step>, n: nat, facts: seq<Fact>)
    requires ClockRuns(start, steps) && n <= |steps|
    requires AllReflected(After(start, steps[..n]).state.entries, facts, After(start, steps[..n]).clock)
    ensures AllReflected(After(start, steps).state.entries, facts, After(start, steps).clock)
  {
    if n == |steps| {
      assert steps[..n] == steps;
    } else {
      hide Next, AllReflected, InTime;
      var init := steps[..|steps| - 1];
      assert init[..n] == steps[..n];
      StaysReflected(start, init, n, facts);
      NextKeepsReflected(After(start, init), steps[|steps| - 1], facts);
    }
  }

  lemma {:induction false} InTimeAt(start: World, steps: seq<Step>, k: nat)
    requires ClockRuns(start, steps) && k < |steps|
    ensures InTime(After(start, steps[..k]), steps[k])
  {
    hide Next, InTime;
    var init := steps[..|steps| - 1];
    if k < |init| {
      InTimeAt(start, init, k);
      assert init[..k] == steps[..k] && init[k] == steps[k];
    }
  }

  /** The reads of a delivery lie before the clock that it leaves, if it is enabled. */
  lemma ClockAfter(w: World, step: Step)
    requires step.Deliver? && step.d.response.Page? && InTime(w, step) && Enabled(w, step)
    ensures var facts := step.d.response.facts;
      && (forall i :: 0 <= i < |facts| ==> facts[i].readAt <= Next(w, step).clock)
      && (forall i, j :: 0 <= i < j < |facts| ==> facts[i].readAt <= facts[j].readAt)
  {
    hide Delivered, TrailsAfter, IssuedAfter;
  }

  /**
   A receipt is normalized only if some delivery of its row read a page and stored all its facts; and while the clock
   does not run backwards those facts are reflected ever after.
   */
  lemma NormalizedIsReflected(tokens: Tokens, now: Time, steps: seq<Step>, id: ReceiptId) returns (k: nat)
    requires ClockRuns(Start(tokens, now), steps)
    requires var s := After(Start(tokens, now), steps).state; id in s.receipts && s.receipts[id] == Normalized
    ensures ReadAt(Start(tokens, now), steps, k, id)
    ensures forall f :: f in steps[k].d.response.facts ==>
              Reflects(EntryOf(After(Start(tokens, now), steps).state.entries, f.key), ReadOf(f))
  {
    hide Next, Reflects, StoredAll;
    var start := Start(tokens, now);
    k := NormalizedWasRead(tokens, now, steps, id);
    InTimeAt(start, steps, k);
    assert steps[..k + 1][..k] == steps[..k];
    var w, d := After(start, steps[..k]), steps[k].d;
    ClockAfter(w, steps[k]);
    ReadsReflected(w.state.entries, d.response.facts, After(start, steps[..k + 1]).clock);
    StaysReflected(start, steps, k + 1, d.response.facts);
  }
}
