/**
 What one reconciliation reports, said without reference to the order of the inputs or of the work.
 A view holds the source objects as sets; every decision reads only the view.
 */
module EngineSpec {
  import opened Wrappers
  import opened Ordering
  import opened Money
  import opened Domain

  const PAID := {"processing", "completed"}
  const UNPAID := {"pending", "failed", "cancelled", "on-hold"}
  const INSTANT := {"card", "card_present", "link", "cashapp", "paypal"}
  const REQUIRED := {"stripe_payments", "stripe_refunds", "woo_orders", "woo_refunds"}

  datatype View = View(
    base: Snapshot, codec: Codec,
    payments: set<Payment>, orders: set<Order>, refunds: set<Refund>, coverage: set<Coverage>)

  function PaymentId(p: Payment): string { p.id }
  function OrderId(o: Order): string { o.id }
  function RefundId(r: Refund): string { r.id }
  function RefundKey(r: Refund): (Source, string) { (r.source, r.id) }
  function CoverageSource(c: Coverage): string { c.source }
  function ProposalKey(q: Proposal): string { q.key }
  function Self(text: string): string { text }

  ghost function ViewOf(s: Snapshot, codec: Codec): View {
    View(s.(payments := [], orders := [], refunds := [], coverage := []), codec,
      ToSet(s.payments), ToSet(s.orders), ToSet(s.refunds), ToSet(s.coverage))
  }

  /** The identities the engine checks before it starts. */
  ghost predicate Identified(v: View) {
    && Injective(v.payments, PaymentId)
    && Injective(v.orders, OrderId)
    && Injective(v.coverage, CoverageSource)
    && (forall a, b :: a in v.refunds && b in v.refunds && a.source == b.source && a.id == b.id ==> a == b)
  }

  ghost predicate Enabled(v: View, rule: Rule) { rule in RULE_CODES && rule !in v.base.policy.disabledRules }

  function OrderTag(id: string): string { "order:" + id }
  function PaymentTag(id: string): string { "payment:" + id }

  // ----- coverage -----

  ghost predicate Covered(v: View, source: string) {
    exists c :: c in v.coverage && c.source == source
      && c.Fresh(v.base.now, v.base.windowFrom, v.base.policy.freshness)
  }

  ghost function Stale(v: View): set<string> { set k | k in REQUIRED && !Covered(v, k) }

  /** The boundary shared by the four required sources. */
  ghost predicate IsThrough(v: View, t: Time) {
    && (exists c :: c in v.coverage && c.source in REQUIRED && c.coveredThrough == t)
    && (forall c :: c in v.coverage && c.source in REQUIRED ==> t <= c.coveredThrough)
  }

  ghost function Through(v: View): Time {
    if exists t :: IsThrough(v, t) then var t :| IsThrough(v, t); t else 0
  }

  // ----- matching -----

  predicate IsStripe(o: Order) { o.paymentMethod == "stripe" || "stripe_" <= o.paymentMethod }

  function References(o: Order): set<string> {
    {o.transactionId, o.paymentIntentId, o.chargeId, o.sessionId} - {""}
  }

  predicate Answers(p: Payment, reference: string) {
    reference == p.id || reference in p.chargeIds || reference in p.sessionIds
  }

  ghost function Resolved(v: View, o: Order): set<string> {
    set p, ref | p in v.payments && ref in References(o) && Answers(p, ref) :: p.id
  }

  ghost function Unresolved(v: View, o: Order): set<string> {
    set ref | ref in References(o) && !exists p :: p in v.payments && Answers(p, ref)
  }

  predicate HintsAt(storeId: string, p: Payment, orderId: string) {
    p.orderHint != "" && p.orderHint == orderId && p.storeHint in {"", storeId}
  }

  ghost function Hinting(v: View, o: Order): set<Payment> {
    set p | p in v.payments && HintsAt(v.base.storeId, p, o.id)
  }

  predicate Contradicts(storeId: string, p: Payment, orderId: string) {
    p.storeHint !in {"", storeId} || p.orderHint !in {"", orderId}
  }

  ghost predicate Conflicting(v: View, o: Order) {
    || |Resolved(v, o)| > 1
    || Unresolved(v, o) != {}
    || (o.id in v.base.ambiguousOrderHints && Hinting(v, o) != {})
    || (exists p :: p in v.payments && p.id in Resolved(v, o) && Contradicts(v.base.storeId, p, o.id))
  }

  ghost predicate Matched(v: View, o: Order) {
    o in v.orders && IsStripe(o) && !Conflicting(v, o)
  }

  ghost predicate Mismatched(v: View, o: Order) {
    o in v.orders && IsStripe(o) && Conflicting(v, o)
  }

  /** The payments an order is matched with. */
  ghost function Group(v: View, o: Order): set<Payment> {
    set p | p in v.payments && (p.id in Resolved(v, o) || HintsAt(v.base.storeId, p, o.id))
  }

  ghost function Confidence(v: View, o: Order): nat {
    if References(o) != {} then if exists r :: r in References(o) && "pi_" <= r then 100 else 95
    else if Group(v, o) != {} then
      if forall p :: p in Group(v, o) ==> p.storeHint == v.base.storeId then 90 else 80
    else 0
  }

  ghost function Claimants(v: View, id: string): set<string> {
    set o, p | o in v.orders && Matched(v, o) && p in Group(v, o) && p.id == id :: o.id
  }

  ghost function Claimed(v: View): set<string> {
    set o, p | o in v.orders && Matched(v, o) && p in Group(v, o) :: p.id
  }

  ghost predicate Contested(v: View, id: string) { |Claimants(v, id)| > 1 }

  ghost function ConflictIds(v: View, o: Order): set<string> {
    {OrderTag(o.id)} + set id | id in Resolved(v, o) :: PaymentTag(id)
  }

  ghost function ClaimIds(v: View, id: string): set<string> {
    {PaymentTag(id)} + set oid | oid in Claimants(v, id) :: OrderTag(oid)
  }

  /** Everything blocked once all payments are claimed. */
  ghost function BlockedByMatching(v: View): set<string> {
    (set o, i | o in v.orders && Mismatched(v, o) && i in ConflictIds(v, o) :: i)
    + (set id, i | id in Claimed(v) && Contested(v, id) && i in ClaimIds(v, id) :: i)
  }

  // ----- proposals -----

  ghost function Make(v: View, rule: Rule, ids: set<string>, risk: Option<Money>, confidence: nat,
      eligible: Time, facts: Facts): Proposal
  {
    var identities := Listing(ids, Self);
    Proposal(
      v.codec.key(KeyMaterial(v.base.organizationId, v.base.storeId, v.base.mode, rule, identities)),
      rule, Severity(rule), identities, risk, confidence, eligible, v.base.now >= eligible,
      Evidence(v.base.policy.version, Listing(v.coverage, CoverageSource), facts))
  }

  function Severity(rule: Rule): string {
    if rule in {PI006, PI007, PI008, PI009} then "high" else "critical"
  }

  /** A proposal that is emitted when the rule applies and is enabled. */
  ghost function When(v: View, applies: bool, q: Proposal): seq<Proposal> {
    if applies && Enabled(v, q.rule) then [q] else []
  }

  ghost function ConflictProposal(v: View, o: Order): Proposal {
    Make(v, PI010, ConflictIds(v, o), Some(o.amount), 100, v.base.now,
      UnresolvedIdentifiers(o, Listing(References(o), Self), Listing(Unresolved(v, o), Self)))
  }

  ghost predicate Known(v: View, id: string) { exists p :: p in v.payments && p.id == id }

  ghost function PaymentOf(v: View, id: string): Payment
    requires Known(v, id)
  {
    var p :| p in v.payments && p.id == id; p
  }

  ghost function ClaimProposal(v: View, id: string): Proposal {
    Make(v, PI010, ClaimIds(v, id), if Known(v, id) then Some(PaymentOf(v, id).received) else None, 100, v.base.now,
      ClaimedTwice(id, Listing(Claimants(v, id), Self)))
  }

  // ----- one matched order -----

  ghost function GroupIds(v: View, o: Order): set<string> {
    {OrderTag(o.id)} + set p | p in Group(v, o) :: PaymentTag(p.id)
  }

  function Grace(policy: Policy, p: Payment): int {
    if p.methodType in INSTANT then policy.instantGrace else policy.asyncGrace
  }

  function Eligible(policy: Policy, p: Payment): Time {
    p.succeededAt.GetOr(p.changedAt) + Grace(policy, p)
  }

  predicate Succeeded(p: Payment) { p.status == "succeeded" }

  ghost function Receipts(v: View, o: Order): set<Payment> { set p | p in Group(v, o) && Succeeded(p) }

  predicate Returns(r: Refund, p: Payment) {
    r.source == Stripe && r.parentId == p.id && r.status == "succeeded"
  }

  ghost function RefundsOf(v: View, p: Payment): set<Refund> { set r | r in v.refunds && Returns(r, p) }

  /** The minor units of a set of refunds. */
  ghost function Sum(s: set<Refund>): int {
    if s == {} then 0 else var r :| r in s; r.amount.minor + Sum(s - {r})
  }

  function Min(a: int, b: int): int { if a <= b then a else b }

  /** A payment whose whole receipt has been returned, settled before the shared boundary. */
  ghost predicate Returned(v: View, p: Payment) {
    var refunds := RefundsOf(v, p);
    && refunds != {} && p.received.minor > 0
    && (forall r :: r in refunds ==> SameUnit(r.amount, p.received))
    && Sum(refunds) == p.received.minor
    && (forall r :: r in refunds ==> r.changedAt + v.base.policy.refundGrace <= Min(v.base.now, Through(v)))
  }

  ghost function Compensated(v: View, o: Order): set<string> {
    set p | p in Receipts(v, o) && Returned(v, p) :: p.id
  }

  /** Every receipt but one has been returned in full. */
  ghost predicate Corrected(v: View, o: Order) {
    |Receipts(v, o)| > 1 && |Receipts(v, o)| - |Compensated(v, o)| == 1
  }

  ghost function StripeRefunds(v: View, o: Order): set<Refund> {
    set r, p | r in v.refunds && p in Group(v, o) && Returns(r, p)
      && !(Corrected(v, o) && r.parentId in Compensated(v, o)) :: r
  }

  ghost function WooRefunds(v: View, o: Order): set<Refund> {
    set r | r in v.refunds && r.source == Woo && r.parentId == o.id
  }

  ghost function OrderRefunds(v: View, o: Order): set<Refund> { StripeRefunds(v, o) + WooRefunds(v, o) }

  ghost function RefundsWithin(s: set<Refund>, p: Payment): set<Refund> { set r | r in s && r.parentId == p.id }

  /** The exits of the per-order pass, in the order they are tried. */
  datatype Stage = HistoryGap | Entangled | Unsettled | LateRefund | MixedCurrency | Excess | Inconsistent | Judged

  ghost function StageOf(v: View, o: Order): Stage {
    if o.createdAt < v.base.windowFrom then HistoryGap
    else if GroupIds(v, o) * BlockedByMatching(v) != {} then Entangled
    else if o.changedAt > Through(v) || exists p :: p in Group(v, o) && p.changedAt > Through(v) then Unsettled
    else if exists r :: r in OrderRefunds(v, o) && r.changedAt > Through(v) then LateRefund
    else if exists r :: r in OrderRefunds(v, o) && !SameUnit(r.amount, o.amount) then MixedCurrency
    else if o.refunded.minor > o.amount.minor
      || exists p :: p in Receipts(v, o) && Sum(RefundsWithin(StripeRefunds(v, o), p)) > p.received.minor then Excess
    else if WooRefunds(v, o) != {} && Sum(WooRefunds(v, o)) != o.refunded.minor then Inconsistent
    else Judged
  }

  /** Matched, and not itself blocked by the matching passes. */
  ghost predicate Examined(v: View, o: Order) {
    Matched(v, o) && OrderTag(o.id) !in BlockedByMatching(v)
  }

  ghost function OrderBlocks(v: View, o: Order): set<string> {
    match StageOf(v, o)
    case HistoryGap => GroupIds(v, o)
    case Entangled => GroupIds(v, o)
    case Unsettled => GroupIds(v, o)
    case LateRefund => {OrderTag(o.id)}
    case Excess => {OrderTag(o.id)}
    case Inconsistent => {OrderTag(o.id)}
    case MixedCurrency => {}
    case Judged => {}
  }

  ghost function OrderWarnings(v: View, o: Order): set<string> {
    match StageOf(v, o)
    case HistoryGap => {"history_outside_coverage:" + OrderTag(o.id)}
    case MixedCurrency => {"refund_currency_conflict:" + o.id}
    case Excess => {"refund_exceeds_payment:" + o.id}
    case Inconsistent => {"woo_refund_projection_inconsistent:" + o.id}
    case _ => {}
  }

  ghost function BaseFacts(v: View, o: Order): Facts {
    OrderFacts(o, Listing(Group(v, o), PaymentId),
      if Corrected(v, o) then Listing(Compensated(v, o), Self) else [])
  }

  /** The largest of a nonempty set of times. */
  ghost predicate IsLatest(t: Time, s: set<Time>) { t in s && forall u :: u in s ==> u <= t }

  ghost function Latest(s: set<Time>): Time {
    if exists t :: IsLatest(t, s) then var t :| IsLatest(t, s); t else 0
  }

  ghost function DuplicateProposal(v: View, o: Order): Proposal {
    Make(v, PI004, GroupIds(v, o), Some(o.amount), Confidence(v, o),
      Latest(set p | p in Receipts(v, o) :: Eligible(v.base.policy, p)), BaseFacts(v, o))
  }

  predicate Resembles(p: Payment, o: Order) {
    p.amount == o.amount && -600 <= p.createdAt - o.createdAt <= 600
  }

  ghost function MissingProposal(v: View, o: Order): Proposal {
    var candidates := Listing(set p | p in v.payments && Resembles(p, o) :: p.id, Self);
    Make(v, PI003, {OrderTag(o.id)}, Some(o.amount), Confidence(v, o),
      o.paidAt.GetOr(o.changedAt) + v.base.policy.instantGrace,
      MissingPayment(BaseFacts(v, o), candidates, if candidates != [] then 40 else 0))
  }

  ghost function PairProposal(v: View, o: Order, p: Payment, rule: Rule): Proposal {
    Make(v, rule, {OrderTag(o.id), PaymentTag(p.id)}, Some(p.received), Confidence(v, o),
      Eligible(v.base.policy, p), BaseFacts(v, o))
  }

  ghost function PairEmissions(v: View, o: Order, receipts: seq<Payment>): seq<Proposal> {
    if receipts == [] then []
    else
      var p := receipts[|receipts| - 1];
      PairEmissions(v, o, receipts[..|receipts| - 1])
        + When(v, o.status in UNPAID, PairProposal(v, o, p, PI001))
        + When(v, p.received != o.amount, PairProposal(v, o, p, PI005))
  }

  ghost function PaymentEmissions(v: View, o: Order): seq<Proposal> {
    When(v, |Receipts(v, o)| > 1 && !Corrected(v, o), DuplicateProposal(v, o))
      + When(v, Receipts(v, o) == {} && o.status in PAID, MissingProposal(v, o))
      + PairEmissions(v, o, Listing(Receipts(v, o), PaymentId))
  }

  ghost function MixedCurrencyProposal(v: View, o: Order): Proposal {
    Make(v, PI008, {OrderTag(o.id)}, Some(o.refunded), Confidence(v, o),
      Latest({o.changedAt} + set r | r in OrderRefunds(v, o) :: r.changedAt) + v.base.policy.refundGrace,
      RefundCurrencyConflict(BaseFacts(v, o)))
  }

  function Abs(n: int): int { if n < 0 then -n else n }

  ghost function Difference(v: View, o: Order): Money {
    Money(Abs(Sum(StripeRefunds(v, o)) - o.refunded.minor), o.amount.currency, o.amount.exponent)
  }

  ghost function RefundProposal(v: View, o: Order, rule: Rule, risk: Money): Proposal {
    var anchor := if o.refunded.minor != 0 || o.status == "refunded" then o.changedAt else v.base.windowFrom;
    Make(v, rule, {OrderTag(o.id)}, Some(risk), Confidence(v, o),
      Latest({anchor} + set r | r in OrderRefunds(v, o) :: r.changedAt) + v.base.policy.refundGrace,
      RefundFacts(BaseFacts(v, o), Listing(StripeRefunds(v, o), RefundId), Listing(WooRefunds(v, o), RefundId),
        Sum(StripeRefunds(v, o)), o.refunded.minor, o.status == "refunded"))
  }

  ghost function RefundEmissions(v: View, o: Order): seq<Proposal> {
    var sr, wr, risk := Sum(StripeRefunds(v, o)), o.refunded.minor, Difference(v, o);
    if sr != 0 && wr == 0 then When(v, true, RefundProposal(v, o, PI006, risk))
    else if (wr != 0 || o.status == "refunded") && sr == 0 then
      When(v, true, RefundProposal(v, o, PI007, if wr != 0 then risk else o.amount))
    else When(v, sr != wr, RefundProposal(v, o, PI008, risk))
  }

  /** Held back as a whole: nothing is reported about the order. */
  ghost predicate Held(v: View, o: Order) { StageOf(v, o) in {HistoryGap, Entangled, Unsettled} }

  ghost function SettledEmissions(v: View, o: Order): seq<Proposal> {
    match StageOf(v, o)
    case MixedCurrency => When(v, true, MixedCurrencyProposal(v, o))
    case Judged => RefundEmissions(v, o)
    case _ => []
  }

  ghost function OrderEmissions(v: View, o: Order): seq<Proposal> {
    if Held(v, o) then [] else PaymentEmissions(v, o) + SettledEmissions(v, o)
  }

  /** The difference of a judged order cannot be represented as an amount. */
  ghost predicate Overflows(v: View, o: Order) {
    Examined(v, o) && StageOf(v, o) == Judged && Difference(v, o).minor > MAX_MINOR
  }

  // ----- one unclaimed payment -----

  ghost predicate Loose(v: View, p: Payment) {
    p in v.payments && p.id !in Claimed(v) && PaymentTag(p.id) !in BlockedByMatching(v) && Succeeded(p)
  }

  ghost predicate OutsideCoverage(v: View, p: Payment) {
    p.changedAt > Through(v) || p.createdAt < v.base.windowFrom
  }

  ghost function UnmatchedProposal(v: View, p: Payment): Proposal {
    Make(v, PI002, {PaymentTag(p.id)}, Some(p.received), 90, Eligible(v.base.policy, p),
      UnmatchedPayment(p, v.base.storeId))
  }

  ghost function LooseEmissions(v: View, p: Payment): seq<Proposal> {
    When(v, Loose(v, p) && !OutsideCoverage(v, p) && p.storeHint == v.base.storeId, UnmatchedProposal(v, p))
  }

  ghost function LooseBlocks(v: View, p: Payment): set<string> {
    if Loose(v, p) && OutsideCoverage(v, p) then {PaymentTag(p.id)} else {}
  }

  ghost function LooseWarnings(v: View, p: Payment): set<string> {
    if Loose(v, p) && !OutsideCoverage(v, p) && p.storeHint != v.base.storeId
    then {"unattributed_payment:" + p.id} else {}
  }

  // ----- the whole evaluation -----

  ghost function ConflictEmissions(v: View, orders: seq<Order>): seq<Proposal> {
    if orders == [] then []
    else
      var o := orders[|orders| - 1];
      ConflictEmissions(v, orders[..|orders| - 1]) + When(v, Mismatched(v, o), ConflictProposal(v, o))
  }

  ghost function ClaimEmissions(v: View, ids: seq<string>): seq<Proposal> {
    if ids == [] then []
    else
      var id := ids[|ids| - 1];
      ClaimEmissions(v, ids[..|ids| - 1]) + When(v, Contested(v, id), ClaimProposal(v, id))
  }

  ghost function ExaminedEmissions(v: View, orders: seq<Order>): seq<Proposal> {
    if orders == [] then []
    else
      var o := orders[|orders| - 1];
      ExaminedEmissions(v, orders[..|orders| - 1]) + (if Examined(v, o) then OrderEmissions(v, o) else [])
  }

  ghost function UnclaimedEmissions(v: View, payments: seq<Payment>): seq<Proposal> {
    if payments == [] then []
    else UnclaimedEmissions(v, payments[..|payments| - 1]) + LooseEmissions(v, payments[|payments| - 1])
  }

  ghost function Emissions(v: View): seq<Proposal> {
    ConflictEmissions(v, Listing(v.orders, OrderId))
      + ClaimEmissions(v, Listing(Claimed(v), Self))
      + ExaminedEmissions(v, Listing(v.orders, OrderId))
      + UnclaimedEmissions(v, Listing(v.payments, PaymentId))
  }

  ghost function BlockedByOrders(v: View, orders: set<Order>): set<string> {
    set o, i | o in orders && Examined(v, o) && i in OrderBlocks(v, o) :: i
  }

  ghost function BlockedLoose(v: View, payments: set<Payment>): set<string> {
    set p, i | p in payments && i in LooseBlocks(v, p) :: i
  }

  ghost function Blocked(v: View): set<string> {
    BlockedByMatching(v) + BlockedByOrders(v, v.orders) + BlockedLoose(v, v.payments)
  }

  ghost function OrdersWarn(v: View, orders: set<Order>): set<string> {
    set o, w | o in orders && Examined(v, o) && w in OrderWarnings(v, o) :: w
  }

  ghost function LooseWarn(v: View, payments: set<Payment>): set<string> {
    set p, w | p in payments && w in LooseWarnings(v, p) :: w
  }

  ghost function Warnings(v: View): set<string> {
    OrdersWarn(v, v.orders) + LooseWarn(v, v.payments)
  }

  function EnabledRules(policy: Policy): seq<Rule> {
    Filter(RULE_CODES, (r: Rule) => r !in policy.disabledRules)
  }

  ghost function Digest(v: View): string {
    v.codec.digest(v.base.(
      payments := Listing(v.payments, v.codec.payment), orders := Listing(v.orders, v.codec.order),
      refunds := Listing(v.refunds, v.codec.refund), coverage := Listing(v.coverage, v.codec.coverage)))
  }

  ghost function Unevaluated(v: View, applies: bool, rule: Rule, facts: Facts, rules: set<Rule>,
      warnings: seq<string>): Evaluation
  {
    Evaluation(When(v, applies, Make(v, rule, {"store:" + v.base.storeId}, None, 100, v.base.now, facts)),
      Filter(EnabledRules(v.base.policy), (r: Rule) => r in rules), [], warnings, Digest(v))
  }

  /** The answer once coverage is fresh and the link is verified. */
  ghost function Reconciled(v: View): Result<Evaluation, EvaluationError> {
    if exists o :: o in v.orders && Overflows(v, o) then Err(AmountOutOfRange)
    else
      Ok(Evaluation(SortBy(Emissions(v), ProposalKey), EnabledRules(v.base.policy),
        Listing(Blocked(v), Self), Listing(Warnings(v), Self), Digest(v)))
  }

  ghost function Expected(v: View): Result<Evaluation, EvaluationError> {
    if Stale(v) != {} then
      Ok(Unevaluated(v, true, PI009, StaleSources(Listing(Stale(v), Self)), {PI009}, []))
    else if !v.base.linkVerified || v.base.linkConflict then
      Ok(Unevaluated(v, v.base.linkConflict, PI010, LinkConflict, {PI009, PI010}, ["link_unverified"]))
    else Reconciled(v)
  }

  // ----- input checks -----

  function InputError(s: Snapshot): Option<EvaluationError> {
    if s.now < s.windowFrom then Some(WindowRequired)
    else if |Keys(s.payments, PaymentId)| != |s.payments| || |Keys(s.orders, OrderId)| != |s.orders|
      then Some(DuplicateIdentity)
    else if exists p :: p in s.payments && (p.accountId != s.accountId || p.mode != s.mode)
      then Some(PaymentNamespace)
    else if exists o :: o in s.orders && (o.storeId != s.storeId || o.mode != s.mode) then Some(OrderNamespace)
    else if s.mode !in {"test", "live"} then Some(UnsupportedMode)
    else if |Keys(s.coverage, CoverageSource)| != |s.coverage| then Some(DuplicateCoverage)
    else if |Keys(s.refunds, RefundKey)| != |s.refunds| then Some(DuplicateRefund)
    else None
  }

  /** What an evaluation of `s` returns. */
  ghost function Answer(s: Snapshot, codec: Codec): Result<Evaluation, EvaluationError> {
    match InputError(s)
    case Some(error) => Err(error)
    case None => Expected(ViewOf(s, codec))
  }
}
