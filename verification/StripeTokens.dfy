/** Refresh-token rotation: the stored credentials against the pair that the provider issued last. */
module StripeTokens {
  import opened Wrappers
  import opened Domain
  import opened StripeWorker
  import opened StripeRuns

  /** An active connector holds the pair issued last; any other holds none. */
  ghost predicate Current(c: Connector, issued: Tokens) {
    if c.status == Active then c.tokens == Some(issued) else c.tokens.None?
  }

  /** A rotation is committed with the first transaction, whether the work that follows succeeds or is rolled back. */
  lemma RotationSurvivesFailure(s: State, key: TaskKey, d: Delivery)
    requires RunsWork(s, key, d) && s.connector.status == Active
    requires NeedsExchange(s.connector, d.now) && d.exchange.Issued? && d.exchange.kept
    ensures var (t, failure) := FirstCommit(s, key, d);
      && (t.connector.status == Active ==> t.connector.tokens == Some(d.exchange.tokens))
      && (t.connector.status == Active <==> failure.None? || !failure.value.permanent)
      && (failure.Some? ==>
            && t.scans == s.scans && t.receipts == s.receipts && t.entries == s.entries
            && t.payments == s.payments && t.refunds == s.refunds && t.outbox == s.outbox)
  {
    hide Polled, Paged, Processed;
    HandledConnector(s.(connector := Refreshed(s.connector, d.now, d.exchange).value), s.outbox[key].task, d);
  }

  lemma HandledConnector(s: State, task: Task, d: Delivery)
    ensures Handled(s, task, d).Ok? ==> Handled(s, task, d).value.connector == s.connector
  {
  }

  /** A refused, lost or unusable refresh suspends the connector and clears its credentials in that same transaction. */
  lemma FailedRefreshSuspends(s: State, key: TaskKey, d: Delivery)
    requires RunsWork(s, key, d) && s.connector.status == Active
    requires NeedsExchange(s.connector, d.now) && !(d.exchange.Issued? && d.exchange.kept)
    ensures FirstCommit(s, key, d)
         == (s.(connector := s.connector.(status := Suspended, tokens := None)), Some(PERMANENT))
    ensures var t := Delivered(s, key, d);
      && t.connector.status == Suspended && t.connector.tokens.None?
      && t.outbox[key].status == Dead && !AnyPending(t.scans) && !t.payments.complete && !t.refunds.complete
  {
  }

  lemma FirstCurrent(s: State, key: TaskKey, d: Delivery, issued: Tokens)
    requires Current(s.connector, issued) && Deliverable(s, key, d.now)
    ensures Current(FirstCommit(s, key, d).0.connector,
                    if RunsWork(s, key, d) && NeedsExchange(s.connector, d.now) && !d.exchange.Refused?
                    then d.exchange.tokens else issued)
    ensures var (t, failure) := FirstCommit(s, key, d);
      failure.Some? && failure.value.permanent ==> t.connector.status != Active && t.connector.tokens.None?
  {
    hide Polled, Paged, Processed;
    var task := s.outbox[key].task;
    HandledConnector(s, task, d);
    if UsesCredentials(s, task) && Refreshed(s.connector, d.now, d.exchange).Ok? {
      HandledConnector(s.(connector := Refreshed(s.connector, d.now, d.exchange).value), task, d);
    } else if !UsesCredentials(s, task) {
      NothingPermanent(s, task, d);
    }
  }

  /** Only work on a scan under way can fail for good. */
  lemma NothingPermanent(s: State, task: Task, d: Delivery)
    requires !UsesCredentials(s, task)
    ensures Handled(s, task, d).Err? ==> !Handled(s, task, d).error.permanent
  {
  }

  lemma NextCurrent(w: World, step: Step)
    requires Current(w.state.connector, w.issued)
    ensures Current(Next(w, step).state.connector, Next(w, step).issued)
  {
    if step.Deliver? && Enabled(w, step) && Deliverable(w.state, step.key, step.d.now) {
      hide FirstCommit, RunsWork, Deliverable, NeedsExchange, TrailsAfter;
      FirstCurrent(w.state, step.key, step.d, w.issued);
    }
  }

  lemma {:induction false} AlwaysCurrent(tokens: Tokens, now: Time, steps: seq<Step>)
    ensures var w := After(Start(tokens, now), steps); Current(w.state.connector, w.issued)
  {
    if steps != [] {
      hide Next;
      AlwaysCurrent(tokens, now, steps[..|steps| - 1]);
      NextCurrent(After(Start(tokens, now), steps[..|steps| - 1]), steps[|steps| - 1]);
    }
  }

  /**
   In every run an active connector stores exactly the pair that the provider issued last, including pairs whose
   delivery failed afterwards, and a connector that is not active stores no credentials.
   */
  lemma ActiveTokensAreCurrent(tokens: Tokens, now: Time, steps: seq<Step>)
    ensures var w := After(Start(tokens, now), steps);
      if w.state.connector.status == Active then w.state.connector.tokens == Some(w.issued)
      else w.state.connector.tokens.None?
  {
    hide Next;
    AlwaysCurrent(tokens, now, steps);
  }
}
