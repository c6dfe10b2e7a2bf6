/** Immutable inputs and outputs of one reconciliation. Times and durations are whole seconds. */
module Domain {
  import opened Wrappers
  import opened Money

  type Time = int

  /** The rule codes PI-001 to PI-010. */
  datatype Rule = PI001 | PI002 | PI003 | PI004 | PI005 | PI006 | PI007 | PI008 | PI009 | PI010

  predicate SameUnit(a: Money, b: Money) { a.currency == b.currency && a.exponent == b.exponent }

  predicate KnownMode(mode: string) { mode == "test" || mode == "live" }

  datatype Payment = Payment(
    id: string, accountId: string, mode: string, status: string, amount: Money, received: Money,
    createdAt: Time, changedAt: Time, succeededAt: Option<Time>, methodType: string, captureMethod: string,
    chargeIds: seq<string>, sessionIds: seq<string>, storeHint: string, orderHint: string, observationId: string)
  {
    predicate Valid() {
      && amount.Valid() && received.Valid() && SameUnit(amount, received) && KnownMode(mode)
      && status in {"requires_payment_method", "requires_confirmation", "requires_action", "processing",
                    "requires_capture", "canceled", "succeeded"}
      && "pi_" <= id && "acct_" <= accountId
    }
  }

  datatype Order = Order(
    id: string, storeId: string, mode: string, status: string, amount: Money, refunded: Money,
    createdAt: Time, changedAt: Time, paidAt: Option<Time>, paymentMethod: string, transactionId: string,
    paymentIntentId: string, chargeId: string, sessionId: string, observationId: string)
  {
    predicate Valid() {
      && amount.Valid() && refunded.Valid() && SameUnit(amount, refunded) && KnownMode(mode)
      && status in {"pending", "processing", "on-hold", "completed", "cancelled", "refunded", "failed",
                    "checkout-draft", "trash"}
      && id != "" && IsDigits(id) && id[0] != '0'
    }
  }

  datatype Source = Stripe | Woo

  datatype Refund = Refund(
    id: string, source: Source, parentId: string, amount: Money, status: string, changedAt: Time,
    observationId: string)
  {
    predicate Valid() {
      amount.Valid() && if source == Stripe then
        status in {"pending", "requires_action", "succeeded", "failed", "canceled"} else status == "recorded"
    }
  }

  datatype Coverage = Coverage(
    source: string, coveredFrom: Time, coveredThrough: Time, observedAt: Time, complete: bool,
    clockOffsetSeconds: int)
  {
    predicate Fresh(now: Time, start: Time, limit: int) {
      && complete
      && coveredFrom <= start <= coveredThrough <= now
      && 0 <= now - coveredThrough <= limit
      && 0 <= now - observedAt <= limit
      && -300 <= clockOffsetSeconds <= 300
    }
  }

  datatype Policy = Policy(
    version: nat, instantGrace: int, asyncGrace: int, refundGrace: int, freshness: int,
    disabledRules: seq<Rule>, shadow: bool)
  {
    predicate Valid() {
      && 5 * 60 <= instantGrace <= 60 * 60 && 10 * 60 <= asyncGrace <= 120 * 60
      && 30 * 60 <= refundGrace <= 120 * 60 && 5 * 60 <= freshness <= 30 * 60
    }
  }

  datatype Snapshot = Snapshot(
    organizationId: string, storeId: string, accountId: string, mode: string, now: Time, windowFrom: Time,
    payments: seq<Payment>, orders: seq<Order>, refunds: seq<Refund>, coverage: seq<Coverage>,
    linkVerified: bool, linkConflict: bool, ambiguousOrderHints: seq<string>, policy: Policy)
  {
    /** All parts can be constructed. The engine's theorems do not need it; an example of a snapshot should have it. */
    predicate Valid() {
      && (forall p :: p in payments ==> p.Valid()) && (forall o :: o in orders ==> o.Valid())
      && (forall r :: r in refunds ==> r.Valid()) && policy.Valid()
    }
  }

  /** The facts a proposal records beside the policy version and the coverage. */
  datatype Facts =
    | StaleSources(stale: seq<string>)
    | LinkConflict
    | UnresolvedIdentifiers(order: Order, references: seq<string>, unresolved: seq<string>)
    | ClaimedTwice(paymentId: string, orderIds: seq<string>)
    | OrderFacts(order: Order, payments: seq<Payment>, compensatedIds: seq<string>)
    | MissingPayment(base: Facts, candidateIds: seq<string>, candidateConfidence: nat)
    | RefundCurrencyConflict(base: Facts)
    | RefundFacts(base: Facts, stripeRefunds: seq<Refund>, wooRefunds: seq<Refund>, stripeMinor: int,
        wooMinor: int, manualStatusPossible: bool)
    | UnmatchedPayment(payment: Payment, confirmedStoreId: string)

  datatype Evidence = Evidence(policyVersion: nat, coverage: seq<Coverage>, facts: Facts)

  /** What a finding key hashes. */
  datatype KeyMaterial = KeyMaterial(
    organizationId: string, storeId: string, mode: string, rule: Rule, identities: seq<string>)

  datatype Proposal = Proposal(
    key: string, rule: Rule, severity: string, identities: seq<string>, risk: Option<Money>, confidence: nat,
    eligibleAt: Time, ready: bool, evidence: Evidence)

  datatype Evaluation = Evaluation(
    proposals: seq<Proposal>, evaluatedRules: seq<Rule>, blocked: seq<string>, warnings: seq<string>,
    digest: string)

  datatype EvaluationError =
    | WindowRequired
    | DuplicateIdentity
    | PaymentNamespace
    | OrderNamespace
    | UnsupportedMode
    | DuplicateCoverage
    | DuplicateRefund
    | AmountOutOfRange

  /** Serialisation and hashing, supplied from outside. */
  datatype Codec = Codec(
    payment: Payment -> string, order: Order -> string, refund: Refund -> string, coverage: Coverage -> string,
    key: KeyMaterial -> string, digest: Snapshot -> string)
  {
    /** Serialisation keeps values apart, and the key hash has no collisions. */
    ghost predicate Faithful() {
      && (forall a, b :: payment(a) == payment(b) ==> a == b)
      && (forall a, b :: order(a) == order(b) ==> a == b)
      && (forall a, b :: refund(a) == refund(b) ==> a == b)
      && (forall a, b :: coverage(a) == coverage(b) ==> a == b)
      && (forall a, b :: key(a) == key(b) ==> a == b)
    }
  }

  const RULE_CODES: seq<Rule> :=
    [PI001, PI002, PI003, PI004, PI005, PI006, PI007, PI008, PI009, PI010]
}
