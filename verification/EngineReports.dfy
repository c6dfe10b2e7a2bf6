/** An evaluation reports exactly what the rules call for, and an order it is silent about has money that agrees. */
module EngineReports {
  import opened Wrappers
  import opened Ordering
  import opened Money
  import opened Domain
  import opened EngineSpec
  import opened EngineLemmas
  import opened EngineProperties
  import opened EngineMeaning

  /** What a proposal claims, apart from its evidence. */
  datatype Statement = Statement(rule: Rule, names: set<string>, risk: Option<Money>, confidence: nat, eligible: Time)

  ghost function StatementOf(q: Proposal): Statement {
    Statement(q.rule, ToSet(q.identities), q.risk, q.confidence, q.eligibleAt)
  }

  ghost predicate Has(qs: seq<Proposal>, m: Statement) { exists q :: q in qs && StatementOf(q) == m }

  /** When a payment's state must have reached the shop. */
  function Due(v: View, p: Payment): Time {
    var policy := v.base.policy;
    (if p.succeededAt.Some? then p.succeededAt.value else p.changedAt)
    + (if p.methodType == "card" || p.methodType == "card_present" || p.methodType == "link"
         || p.methodType == "cashapp" || p.methodType == "paypal" then policy.instantGrace else policy.asyncGrace)
  }

  /** How sure the link is: by a payment id, by another identifier, or by hints of this store or of none. */
  ghost function Rated(v: View, o: Order): nat {
    if exists r :: Mentions(o, r) then
      if exists r :: Mentions(o, r) && |r| >= 3 && r[..3] == "pi_" then 100 else 95
    else if exists p :: Belongs(v, o, p) then
      if forall p :: Belongs(v, o, p) ==> p.storeHint == v.base.storeId then 90 else 80
    else 0
  }

  /** The grace period after the last change of the order's refunds ends at this time. */
  ghost predicate RefundsDue(v: View, o: Order, anchor: Time, t: Time) {
    var last, refunds := t - v.base.policy.refundGrace, Counted(v, o) + Recorded(v, o);
    && anchor <= last && (forall r :: r in refunds ==> r.changedAt <= last)
    && (anchor == last || exists r :: r in refunds && r.changedAt == last)
  }

  ghost function Gap(v: View, o: Order): Option<Money> {
    var difference := Sum(Counted(v, o)) - o.refunded.minor;
    Some(Money(if difference < 0 then -difference else difference, o.amount.currency, o.amount.exponent))
  }

  /** The change of the order counts when the shop says that something was refunded. */
  function RefundAnchor(v: View, o: Order): Time {
    if o.refunded.minor != 0 || o.status == "refunded" then o.changedAt else v.base.windowFrom
  }

  ghost predicate Compares(v: View, o: Order, m: Statement) {
    && Comparable(v, o) && m.names == {"order:" + o.id} && m.confidence == Rated(v, o)
    && RefundsDue(v, o, RefundAnchor(v, o), m.eligible)
  }

  /** What is reported about an order that can be judged. */
  ghost predicate OrderSays(v: View, o: Order, m: Statement) {
    match m.rule
    case PI001 =>
      exists p :: Paid(v, o, p)
        && (o.status == "pending" || o.status == "failed" || o.status == "cancelled" || o.status == "on-hold")
        && m == Statement(PI001, {"order:" + o.id, "payment:" + p.id}, Some(p.received), Rated(v, o), Due(v, p))
    case PI003 =>
      && (o.status == "processing" || o.status == "completed") && (forall p :: !Paid(v, o, p))
      && m == Statement(PI003, {"order:" + o.id}, Some(o.amount), Rated(v, o),
                (if o.paidAt.Some? then o.paidAt.value else o.changedAt) + v.base.policy.instantGrace)
    case PI004 =>
      && (exists p, q :: Paid(v, o, p) && Paid(v, o, q) && p != q) && !KeptOne(v, o)
      && m.names == {"order:" + o.id} + (set p | p in v.payments && Belongs(v, o, p) :: "payment:" + p.id)
      && m.risk == Some(o.amount) && m.confidence == Rated(v, o)
      && (exists p :: Paid(v, o, p) && Due(v, p) == m.eligible)
      && (forall p :: Paid(v, o, p) ==> Due(v, p) <= m.eligible)
    case PI005 =>
      exists p :: Paid(v, o, p) && p.received != o.amount
        && m == Statement(PI005, {"order:" + o.id, "payment:" + p.id}, Some(p.received), Rated(v, o), Due(v, p))
    case PI006 =>
      Compares(v, o, m) && Sum(Counted(v, o)) != 0 && o.refunded.minor == 0 && m.risk == Gap(v, o)
    case PI007 =>
      && Compares(v, o, m) && Sum(Counted(v, o)) == 0 && (o.refunded.minor != 0 || o.status == "refunded")
      && m.risk == (if o.refunded.minor != 0 then Gap(v, o) else Some(o.amount))
    case PI008 =>
      || (Compares(v, o, m) && m.risk == Gap(v, o)
          && Sum(Counted(v, o)) != 0 && o.refunded.minor != 0 && Sum(Counted(v, o)) != o.refunded.minor)
      || (RefundsInReach(v, o) && !OneUnit(v, o) && RefundsDue(v, o, o.changedAt, m.eligible)
          && m.names == {"order:" + o.id} && m.risk == Some(o.refunded) && m.confidence == Rated(v, o))
    case _ => false
  }

  lemma HasAppend(a: seq<Proposal>, b: seq<Proposal>, m: Statement)
    ensures Has(a + b, m) <==> Has(a, m) || Has(b, m)
  {
    hide StatementOf;
    forall q ensures q in a + b <==> q in a || q in b {}
  }

  lemma HasWhen(v: View, applies: bool, q: Proposal, m: Statement)
    ensures Has(When(v, applies, q), m) <==> applies && Enabled(v, q.rule) && StatementOf(q) == m
  {
    hide StatementOf, Enabled;
    if applies && Enabled(v, q.rule) { assert q in When(v, applies, q); }
  }

  lemma MadeStatement(v: View, rule: Rule, ids: set<string>, risk: Option<Money>, confidence: nat, eligible: Time,
      facts: Facts)
    ensures StatementOf(Make(v, rule, ids, risk, confidence, eligible, facts))
         == Statement(rule, ids, risk, confidence, eligible)
  {
    ListingEmpty(ids, Self);
  }

  lemma RatedIs(v: View, o: Order)
    requires Identified(v)
    ensures Rated(v, o) == Confidence(v, o)
  {
    hide Group, Belongs;
    ReferencesAre(v, o);
    forall p { BelongsIs(v, o, p); }
    forall r: string ensures "pi_" <= r <==> |r| >= 3 && r[..3] == "pi_" {}
    assert References(o) != {} <==> exists r :: Mentions(o, r) by {
      if r :| Mentions(o, r) { assert r in References(o); }
    }
    assert Group(v, o) != {} <==> exists p :: Belongs(v, o, p) by {
      if p :| Belongs(v, o, p) { assert p in Group(v, o); }
    }
  }

  lemma DueIs(v: View, p: Payment)
    ensures Due(v, p) == Eligible(v.base.policy, p)
  {
  }

  lemma {:induction false} LatestExists(s: set<Time>, t: Time) returns (last: Time)
    requires t in s
    ensures IsLatest(last, s) && Latest(s) == last
    decreases s
  {
    if u :| u in s && u > t {
      last := LatestExists(s - {t}, u);
      assert u in s - {t};
      forall x | x in s ensures x <= last { assert x in s - {t} || x == t; }
    } else {
      last := t;
    }
    LatestIs(last, s);
  }

  lemma RefundsDueIs(v: View, o: Order, anchor: Time, t: Time)
    requires Identified(v) && Stale(v) == {}
    ensures RefundsDue(v, o, anchor, t) <==>
              t == Latest({anchor} + set r | r in OrderRefunds(v, o) :: r.changedAt) + v.base.policy.refundGrace
  {
    hide Counted, Recorded, StripeRefunds, WooRefunds, Latest, Identified, Stale;
    CountedIs(v, o);
    var refunds := Counted(v, o) + Recorded(v, o);
    assert refunds == OrderRefunds(v, o);
    var times := {anchor} + set r | r in refunds :: r.changedAt;
    var last := LatestExists(times, anchor);
    assert forall r :: r in refunds ==> r.changedAt in times;
  }

  lemma DuplicateDueIs(v: View, o: Order, t: Time)
    requires Identified(v) && exists p :: Paid(v, o, p)
    ensures (exists p :: Paid(v, o, p) && Due(v, p) == t) && (forall p :: Paid(v, o, p) ==> Due(v, p) <= t) <==>
              t == Latest(set p | p in Receipts(v, o) :: Eligible(v.base.policy, p))
  {
    hide Paid, Receipts, Latest, Identified, Due, Eligible;
    forall p ensures p in Receipts(v, o) <==> Paid(v, o, p) { PaidIs(v, o, p); }
    forall p ensures Due(v, p) == Eligible(v.base.policy, p) { DueIs(v, p); }
    var p :| Paid(v, o, p);
    var times := set p | p in Receipts(v, o) :: Eligible(v.base.policy, p);
    var last := LatestExists(times, Eligible(v.base.policy, p));
    assert forall p :: p in Receipts(v, o) ==> Eligible(v.base.policy, p) in times;
  }

  // ----- the reports about one order -----

  ghost predicate PairSays(v: View, o: Order, p: Payment, m: Statement) {
    && m == Statement(m.rule, {"order:" + o.id, "payment:" + p.id}, Some(p.received), Rated(v, o), Due(v, p))
    && ((m.rule == PI001
         && (o.status == "pending" || o.status == "failed" || o.status == "cancelled" || o.status == "on-hold"))
        || (m.rule == PI005 && p.received != o.amount))
  }

  lemma OnePairSays(v: View, o: Order, p: Payment, m: Statement)
    requires Identified(v)
    ensures Has(When(v, o.status in UNPAID, PairProposal(v, o, p, PI001)), m)
              || Has(When(v, p.received != o.amount, PairProposal(v, o, p, PI005)), m)
            <==> Enabled(v, m.rule) && PairSays(v, o, p, m)
  {
    hide Identified, Has, When, Make, StatementOf, Enabled, Rated, Confidence, Due, Eligible, BaseFacts;
    RatedIs(v, o);
    DueIs(v, p);
    var ids := {OrderTag(o.id), PaymentTag(p.id)};
    var due := Eligible(v.base.policy, p);
    MadeStatement(v, PI001, ids, Some(p.received), Confidence(v, o), due, BaseFacts(v, o));
    MadeStatement(v, PI005, ids, Some(p.received), Confidence(v, o), due, BaseFacts(v, o));
    PairRules(v, o, p);
    HasWhen(v, o.status in UNPAID, PairProposal(v, o, p, PI001), m);
    HasWhen(v, p.received != o.amount, PairProposal(v, o, p, PI005), m);
  }

  lemma PairRules(v: View, o: Order, p: Payment)
    ensures PairProposal(v, o, p, PI001).rule == PI001 && PairProposal(v, o, p, PI005).rule == PI005
  {
  }

  lemma {:induction false} PairsSay(v: View, o: Order, receipts: seq<Payment>, m: Statement)
    requires Identified(v)
    ensures Has(PairEmissions(v, o, receipts), m) <==>
              Enabled(v, m.rule) && exists p :: p in receipts && PairSays(v, o, p, m)
  {
    hide Identified, When, StatementOf, Enabled, PairSays, PairProposal;
    if receipts != [] {
      var init, p := receipts[..|receipts| - 1], receipts[|receipts| - 1];
      PairsSay(v, o, init, m);
      OnePairSays(v, o, p, m);
      var unpaid := When(v, o.status in UNPAID, PairProposal(v, o, p, PI001));
      var differs := When(v, p.received != o.amount, PairProposal(v, o, p, PI005));
      HasAppend(PairEmissions(v, o, init) + unpaid, differs, m);
      HasAppend(PairEmissions(v, o, init), unpaid, m);
      forall q ensures q in receipts <==> q in init || q == p {}
    }
  }

  lemma MissingSays(v: View, o: Order, m: Statement)
    requires Identified(v)
    ensures Has(When(v, Receipts(v, o) == {} && o.status in PAID, MissingProposal(v, o)), m) <==>
              Enabled(v, m.rule) && m.rule == PI003 && OrderSays(v, o, m)
  {
    hide Identified, Has, When, Make, StatementOf, Enabled, Rated, Confidence, BaseFacts, Receipts, Paid, Listing,
      Resembles, KeptOne, Compares, RefundsDue, Gap, Due, Belongs, Counted, OneUnit, RefundsInReach;
    RatedIs(v, o);
    forall p ensures p in Receipts(v, o) <==> Paid(v, o, p) { PaidIs(v, o, p); }
    var candidates := Listing(set p | p in v.payments && Resembles(p, o) :: p.id, Self);
    var facts := MissingPayment(BaseFacts(v, o), candidates, if candidates != [] then 40 else 0);
    var due := o.paidAt.GetOr(o.changedAt) + v.base.policy.instantGrace;
    MadeStatement(v, PI003, {OrderTag(o.id)}, Some(o.amount), Confidence(v, o), due, facts);
    MissingRule(v, o);
    HasWhen(v, Receipts(v, o) == {} && o.status in PAID, MissingProposal(v, o), m);
  }

  lemma MissingRule(v: View, o: Order)
    ensures MissingProposal(v, o).rule == PI003 && DuplicateProposal(v, o).rule == PI004
    ensures MixedCurrencyProposal(v, o).rule == PI008
    ensures forall rule, risk :: RefundProposal(v, o, rule, risk).rule == rule
  {
  }

  lemma DuplicateSays(v: View, o: Order, m: Statement)
    requires Identified(v) && Stale(v) == {}
    ensures Has(When(v, |Receipts(v, o)| > 1 && !Corrected(v, o), DuplicateProposal(v, o)), m) <==>
              Enabled(v, m.rule) && m.rule == PI004 && OrderSays(v, o, m)
  {
    hide Identified, Stale, Has, When, Make, StatementOf, Enabled, Rated, Confidence, BaseFacts, Receipts, Paid, Latest,
      KeptOne, Corrected, Compares, RefundsDue, Gap, Due, Eligible, Group, Belongs, Counted, OneUnit, RefundsInReach;
    RatedIs(v, o);
    KeptOneIs(v, o);
    SeveralPaid(v, o);
    GroupNames(v, o);
    var due := Latest(set p | p in Receipts(v, o) :: Eligible(v.base.policy, p));
    MadeStatement(v, PI004, GroupIds(v, o), Some(o.amount), Confidence(v, o), due, BaseFacts(v, o));
    MissingRule(v, o);
    HasWhen(v, |Receipts(v, o)| > 1 && !Corrected(v, o), DuplicateProposal(v, o), m);
    if exists p :: Paid(v, o, p) { DuplicateDueIs(v, o, m.eligible); }
  }

  lemma SeveralPaid(v: View, o: Order)
    requires Identified(v)
    ensures |Receipts(v, o)| > 1 <==> exists p, q :: Paid(v, o, p) && Paid(v, o, q) && p != q
  {
    hide Identified, Receipts, Paid;
    forall p ensures p in Receipts(v, o) <==> Paid(v, o, p) { PaidIs(v, o, p); }
    if |Receipts(v, o)| > 1 {
      var p :| p in Receipts(v, o);
      var q := AnotherMember(Receipts(v, o), p);
    }
    if p, q :| Paid(v, o, p) && Paid(v, o, q) && p != q { TwoMembers(Receipts(v, o), p, q); }
  }

  lemma GroupNames(v: View, o: Order)
    requires Identified(v)
    ensures GroupIds(v, o)
         == {"order:" + o.id} + set p | p in v.payments && Belongs(v, o, p) :: "payment:" + p.id
  {
    hide Belongs, Group, Identified;
    forall p ensures p in Group(v, o) <==> p in v.payments && Belongs(v, o, p) {
      BelongsIs(v, o, p);
      if Belongs(v, o, p) { BelongsAreKnown(v, o, p); }
    }
  }

  lemma PaymentsSay(v: View, o: Order, m: Statement)
    requires Identified(v) && Stale(v) == {}
    ensures Has(PaymentEmissions(v, o), m) <==>
              Enabled(v, m.rule) && m.rule in {PI001, PI003, PI004, PI005} && OrderSays(v, o, m)
  {
    hide Identified, Stale, Has, When, StatementOf, Enabled, Rated, Receipts, Paid, Listing, KeptOne, Corrected,
      Compares, RefundsDue, Gap, Due, Counted, OneUnit, RefundsInReach, DuplicateProposal, MissingProposal,
      PairEmissions;
    var receipts := Listing(Receipts(v, o), PaymentId);
    var a := When(v, |Receipts(v, o)| > 1 && !Corrected(v, o), DuplicateProposal(v, o));
    var b := When(v, Receipts(v, o) == {} && o.status in PAID, MissingProposal(v, o));
    HasAppend(a + b, PairEmissions(v, o, receipts), m);
    HasAppend(a, b, m);
    DuplicateSays(v, o, m);
    MissingSays(v, o, m);
    PairsSay(v, o, receipts, m);
    ListingEmpty(Receipts(v, o), PaymentId);
    forall p ensures p in receipts <==> Paid(v, o, p) { PaidIs(v, o, p); }
    PairMeans(v, o, m);
  }

  lemma PairMeans(v: View, o: Order, m: Statement)
    ensures (exists p :: Paid(v, o, p) && PairSays(v, o, p, m)) <==> m.rule in {PI001, PI005} && OrderSays(v, o, m)
  {
    hide Paid, Rated, Due, KeptOne, Compares, Gap, RefundsDue;
  }

  lemma MixedSays(v: View, o: Order, m: Statement)
    requires Identified(v) && Stale(v) == {} && Ripe(v, o) && RefundsInReach(v, o) && !OneUnit(v, o)
    ensures Has(When(v, true, MixedCurrencyProposal(v, o)), m) <==>
              Enabled(v, m.rule) && m.rule in {PI006, PI007, PI008} && OrderSays(v, o, m)
  {
    hide Identified, Stale, Has, When, Make, StatementOf, Enabled, Rated, Confidence, BaseFacts, Paid, Latest, Sane,
      KeptOne, Ripe, RefundsDue, Gap, Due, Belongs, Counted, Recorded, OneUnit, RefundsInReach, OrderRefunds;
    RatedIs(v, o);
    RefundsDueIs(v, o, o.changedAt, m.eligible);
    var due := Latest({o.changedAt} + set r | r in OrderRefunds(v, o) :: r.changedAt) + v.base.policy.refundGrace;
    var facts := RefundCurrencyConflict(BaseFacts(v, o));
    MadeStatement(v, PI008, {OrderTag(o.id)}, Some(o.refunded), Confidence(v, o), due, facts);
    MissingRule(v, o);
    HasWhen(v, true, MixedCurrencyProposal(v, o), m);
  }

  lemma ComparisonStatement(v: View, o: Order, rule: Rule, risk: Money)
    ensures StatementOf(RefundProposal(v, o, rule, risk))
         == Statement(rule, {"order:" + o.id}, Some(risk), Confidence(v, o),
              Latest({RefundAnchor(v, o)} + set r | r in OrderRefunds(v, o) :: r.changedAt) + v.base.policy.refundGrace)
    ensures RefundProposal(v, o, rule, risk).rule == rule
  {
    hide Make, StatementOf, Confidence, BaseFacts, Latest, Listing, OrderRefunds, StripeRefunds, WooRefunds, Sum;
    var changes := set r | r in OrderRefunds(v, o) :: r.changedAt;
    var due := Latest({RefundAnchor(v, o)} + changes) + v.base.policy.refundGrace;
    var facts := RefundFacts(BaseFacts(v, o), Listing(StripeRefunds(v, o), RefundId),
      Listing(WooRefunds(v, o), RefundId), Sum(StripeRefunds(v, o)), o.refunded.minor, o.status == "refunded");
    MadeStatement(v, rule, {OrderTag(o.id)}, Some(risk), Confidence(v, o), due, facts);
    MissingRule(v, o);
  }

  lemma ComparisonSays(v: View, o: Order, applies: bool, rule: Rule, risk: Money, m: Statement)
    requires Identified(v) && Stale(v) == {} && Comparable(v, o)
    ensures Has(When(v, applies, RefundProposal(v, o, rule, risk)), m) <==>
              applies && Enabled(v, m.rule) && m.rule == rule && Compares(v, o, m) && m.risk == Some(risk)
  {
    hide Identified, Stale, Has, When, StatementOf, Enabled, Rated, Confidence, Latest, Comparable, RefundsDue,
      RefundProposal, OrderRefunds;
    RatedIs(v, o);
    RefundsDueIs(v, o, RefundAnchor(v, o), m.eligible);
    ComparisonStatement(v, o, rule, risk);
    HasWhen(v, applies, RefundProposal(v, o, rule, risk), m);
  }

  lemma GapIs(v: View, o: Order)
    requires Identified(v) && Stale(v) == {}
    ensures Gap(v, o) == Some(Difference(v, o)) && Sum(Counted(v, o)) == Sum(StripeRefunds(v, o))
  {
    hide Counted, StripeRefunds, Sum, Identified, Stale;
    CountedIs(v, o);
  }

  lemma RefundsSay(v: View, o: Order, m: Statement)
    requires Identified(v) && Stale(v) == {} && Comparable(v, o)
    ensures Has(RefundEmissions(v, o), m) <==>
              Enabled(v, m.rule) && m.rule in {PI006, PI007, PI008} && OrderSays(v, o, m)
  {
    hide Identified, Stale, Has, When, StatementOf, Enabled, Rated, RefundProposal, Difference, Gap, Sum, Ripe, Sane,
      Counted, StripeRefunds, Paid, KeptOne, Due, RefundsDue, OneUnit, RefundsInReach, Belongs;
    GapIs(v, o);
    var risk := Difference(v, o);
    var sr, wr := Sum(StripeRefunds(v, o)), o.refunded.minor;
    ComparisonSays(v, o, true, PI006, risk, m);
    ComparisonSays(v, o, true, PI007, if wr != 0 then risk else o.amount, m);
    ComparisonSays(v, o, sr != wr, PI008, risk, m);
  }

  lemma NothingSettledSays(v: View, o: Order, m: Statement)
    requires !Comparable(v, o) && !(RefundsInReach(v, o) && !OneUnit(v, o))
    ensures !(m.rule in {PI006, PI007, PI008} && OrderSays(v, o, m))
  {
    hide Comparable, RefundsInReach, OneUnit, Paid, KeptOne, RefundsDue, Gap;
  }

  lemma SettledSay(v: View, o: Order, m: Statement)
    requires Identified(v) && Stale(v) == {} && Ripe(v, o)
    ensures Has(SettledEmissions(v, o), m) <==>
              Enabled(v, m.rule) && m.rule in {PI006, PI007, PI008} && OrderSays(v, o, m)
  {
    hide Identified, Stale, Has, StatementOf, Enabled, RefundEmissions, MixedCurrencyProposal, OrderSays, StageOf, When,
      RefundsInReach, OneUnit, Sane, Ripe;
    StageIs(v, o);
    if StageOf(v, o) == Judged {
      RefundsSay(v, o, m);
    } else if StageOf(v, o) == MixedCurrency {
      MixedSays(v, o, m);
    } else {
      NothingSettledSays(v, o, m);
      NoneHas(m);
    }
  }

  lemma NoneHas(m: Statement)
    ensures !Has([], m)
  {
  }

  lemma OrderSaysRule(v: View, o: Order, m: Statement)
    requires OrderSays(v, o, m)
    ensures m.rule in {PI001, PI003, PI004, PI005, PI006, PI007, PI008}
  {
  }

  lemma OrderReports(v: View, o: Order, m: Statement)
    requires Identified(v) && Stale(v) == {} && Ripe(v, o)
    ensures Has(OrderEmissions(v, o), m) <==> Enabled(v, m.rule) && OrderSays(v, o, m)
  {
    hide Identified, Stale, Has, StatementOf, Enabled, PaymentEmissions, SettledEmissions, OrderSays, Held, Ripe;
    RipeIs(v, o);
    PaymentsSay(v, o, m);
    SettledSay(v, o, m);
    HasAppend(PaymentEmissions(v, o), SettledEmissions(v, o), m);
    if OrderSays(v, o, m) { OrderSaysRule(v, o, m); }
  }

  // ----- the reports of an evaluation -----

  /** Succeeded and covered, with this store's hint, and no linked or garbled order's. */
  ghost predicate Stray(v: View, p: Payment) {
    && p in v.payments && p.status == "succeeded" && p.storeHint == v.base.storeId
    && p.createdAt >= v.base.windowFrom && InReach(v, p.changedAt)
    && (forall o :: Linked(v, o) ==> !Belongs(v, o, p))
    && (forall o :: Garbled(v, o) ==> !Points(o, p))
  }

  ghost predicate Disputed(v: View, p: Payment) {
    exists a, b :: Linked(v, a) && Linked(v, b) && a != b && Belongs(v, a, p) && Belongs(v, b, p)
  }

  ghost predicate StraySays(v: View, p: Payment, m: Statement) {
    Stray(v, p) && m == Statement(PI002, {"payment:" + p.id}, Some(p.received), 90, Due(v, p))
  }

  ghost predicate GarbledSays(v: View, o: Order, m: Statement) {
    && Garbled(v, o)
    && m == Statement(PI010, {"order:" + o.id} + (set p | p in v.payments && Points(o, p) :: "payment:" + p.id),
              Some(o.amount), 100, v.base.now)
  }

  ghost predicate DisputedSays(v: View, p: Payment, m: Statement) {
    && Disputed(v, p)
    && m == Statement(PI010,
              {"payment:" + p.id} + (set o | o in v.orders && Linked(v, o) && Belongs(v, o, p) :: "order:" + o.id),
              Some(p.received), 100, v.base.now)
  }

  /** The rules call for this report. */
  ghost predicate Grounded(v: View, m: Statement) {
    || (exists o :: Ripe(v, o) && OrderSays(v, o, m))
    || (exists p :: StraySays(v, p, m))
    || (exists o :: GarbledSays(v, o, m))
    || (exists p :: DisputedSays(v, p, m))
  }

  lemma ConflictSays(v: View, o: Order, m: Statement)
    requires Identified(v)
    ensures Has(When(v, Mismatched(v, o), ConflictProposal(v, o)), m) <==> Enabled(v, m.rule) && GarbledSays(v, o, m)
  {
    hide Identified, Has, When, Make, StatementOf, Enabled, Mismatched, Garbled, Points, Resolved, Listing, References,
      Unresolved;
    LinkedIs(v, o);
    ConflictNames(v, o);
    var facts := UnresolvedIdentifiers(o, Listing(References(o), Self), Listing(Unresolved(v, o), Self));
    MadeStatement(v, PI010, ConflictIds(v, o), Some(o.amount), 100, v.base.now, facts);
    ConflictRule(v, o);
    HasWhen(v, Mismatched(v, o), ConflictProposal(v, o), m);
  }

  lemma ConflictRule(v: View, o: Order)
    ensures ConflictProposal(v, o).rule == PI010
  {
  }

  lemma ConflictNames(v: View, o: Order)
    requires Identified(v)
    ensures ConflictIds(v, o)
         == {"order:" + o.id} + set p | p in v.payments && Points(o, p) :: "payment:" + p.id
  {
    hide Identified, Points, Resolved;
    forall p | p in v.payments ensures p.id in Resolved(v, o) <==> Points(o, p) { PointsIs(v, o, p); }
    ResolvedIds(v, o);
    var tags := set p | p in v.payments && Points(o, p) :: "payment:" + p.id;
    forall id ensures id in Resolved(v, o) ==> PaymentTag(id) in tags {
      if id in Resolved(v, o) {
        var p :| p in v.payments && p.id == id;
        assert "payment:" + p.id in tags;
      }
    }
    forall p | p in v.payments && Points(o, p) ensures "payment:" + p.id in ConflictIds(v, o) {
      assert PaymentTag(p.id) in ConflictIds(v, o);
    }
  }

  lemma ResolvedIds(v: View, o: Order)
    ensures forall id :: id in Resolved(v, o) ==> exists p :: p in v.payments && p.id == id
  {
  }

  lemma {:induction false} ConflictsSay(v: View, orders: seq<Order>, m: Statement)
    requires Identified(v)
    ensures Has(ConflictEmissions(v, orders), m) <==>
              Enabled(v, m.rule) && exists o :: o in orders && GarbledSays(v, o, m)
  {
    hide Identified, When, StatementOf, Enabled, GarbledSays, ConflictProposal, Mismatched;
    if orders != [] {
      var init, o := orders[..|orders| - 1], orders[|orders| - 1];
      ConflictsSay(v, init, m);
      ConflictSays(v, o, m);
      HasAppend(ConflictEmissions(v, init), When(v, Mismatched(v, o), ConflictProposal(v, o)), m);
      forall d ensures d in orders <==> d in init || d == o {}
    }
  }

  lemma ClaimantsAre(v: View, p: Payment)
    requires Identified(v) && p in v.payments
    ensures Claimants(v, p.id) == set o | o in v.orders && Linked(v, o) && Belongs(v, o, p) :: o.id
    ensures Contested(v, p.id) <==> Disputed(v, p)
  {
    hide Matched, Group, Linked, Belongs;
    forall o { LinkedIs(v, o); }
    forall o, q { BelongsIs(v, o, q); }
    forall q | q in v.payments && q.id == p.id ensures q == p { assert PaymentId(q) == PaymentId(p); }
    forall o, q | q in Group(v, o) ensures q in v.payments { BelongsAreKnown(v, o, q); }
    assert Claimants(v, p.id) == set o | o in v.orders && Linked(v, o) && Belongs(v, o, p) :: o.id;
    if Contested(v, p.id) {
      var a := AnotherMember(Claimants(v, p.id), "");
      var b := AnotherMember(Claimants(v, p.id), a);
      var x :| x in v.orders && Linked(v, x) && Belongs(v, x, p) && x.id == a;
      var y :| y in v.orders && Linked(v, y) && Belongs(v, y, p) && y.id == b;
    }
    if a, b :| Linked(v, a) && Linked(v, b) && a != b && Belongs(v, a, p) && Belongs(v, b, p) {
      LinkedAreKnown(v, a);
      LinkedAreKnown(v, b);
      assert OrderId(a) != OrderId(b);
      TwoMembers(Claimants(v, p.id), a.id, b.id);
    }
  }

  lemma LinkedAreKnown(v: View, o: Order)
    requires Linked(v, o)
    ensures o in v.orders
  {
  }

  lemma ClaimSays(v: View, p: Payment, m: Statement)
    requires Identified(v) && p in v.payments
    ensures Has(When(v, Contested(v, p.id), ClaimProposal(v, p.id)), m) <==>
              Enabled(v, m.rule) && DisputedSays(v, p, m)
  {
    hide Has, When, Make, StatementOf, Enabled, Contested, Disputed, Listing, Claimants, Linked, Belongs;
    ClaimantsAre(v, p);
    ClaimNames(v, p);
    assert Known(v, p.id) && PaymentOf(v, p.id) == p by {
      forall q | q in v.payments && q.id == p.id ensures q == p { assert PaymentId(q) == PaymentId(p); }
    }
    var facts := ClaimedTwice(p.id, Listing(Claimants(v, p.id), Self));
    MadeStatement(v, PI010, ClaimIds(v, p.id), Some(p.received), 100, v.base.now, facts);
    ClaimRule(v, p.id);
    HasWhen(v, Contested(v, p.id), ClaimProposal(v, p.id), m);
  }

  lemma ClaimNames(v: View, p: Payment)
    requires Identified(v) && p in v.payments
    ensures ClaimIds(v, p.id)
         == {"payment:" + p.id} + set o | o in v.orders && Linked(v, o) && Belongs(v, o, p) :: "order:" + o.id
  {
    hide Identified, Linked, Belongs, Contested, Disputed, Claimants;
    ClaimantsAre(v, p);
    var tags := set o | o in v.orders && Linked(v, o) && Belongs(v, o, p) :: "order:" + o.id;
    forall id | id in Claimants(v, p.id) ensures OrderTag(id) in tags {
      var o :| o in v.orders && Linked(v, o) && Belongs(v, o, p) && o.id == id;
    }
    forall o | o in v.orders && Linked(v, o) && Belongs(v, o, p) ensures "order:" + o.id in ClaimIds(v, p.id) {
      assert o.id in Claimants(v, p.id) && OrderTag(o.id) in ClaimIds(v, p.id);
    }
  }

  lemma ClaimRule(v: View, id: string)
    ensures ClaimProposal(v, id).rule == PI010
  {
  }

  lemma {:induction false} ClaimsSay(v: View, ids: seq<string>, m: Statement)
    requires Identified(v) && forall id :: id in ids ==> Known(v, id)
    ensures Has(ClaimEmissions(v, ids), m) <==>
              Enabled(v, m.rule) && exists p :: p in v.payments && p.id in ids && DisputedSays(v, p, m)
  {
    hide Identified, When, StatementOf, Enabled, DisputedSays, ClaimProposal, Contested;
    if ids != [] {
      var init, id := ids[..|ids| - 1], ids[|ids| - 1];
      ClaimsSay(v, init, m);
      assert Known(v, id);
      var p :| p in v.payments && p.id == id;
      ClaimSays(v, p, m);
      OnlyPayment(v, p);
      HasAppend(ClaimEmissions(v, init), When(v, Contested(v, id), ClaimProposal(v, id)), m);
      forall d ensures d in ids <==> d in init || d == id {}
    }
  }

  lemma OnlyPayment(v: View, p: Payment)
    requires Identified(v) && p in v.payments
    ensures forall q :: q in v.payments && q.id == p.id ==> q == p
  {
    forall q | q in v.payments && q.id == p.id ensures q == p { assert PaymentId(q) == PaymentId(p); }
  }

  lemma {:induction false} ExaminedSay(v: View, orders: seq<Order>, m: Statement)
    requires Identified(v) && Stale(v) == {}
    ensures Has(ExaminedEmissions(v, orders), m) <==>
              Enabled(v, m.rule) && exists o :: o in orders && Ripe(v, o) && OrderSays(v, o, m)
  {
    hide Identified, Stale, StatementOf, Enabled, OrderSays, OrderEmissions, Examined, Ripe, Held;
    if orders != [] {
      var init, o := orders[..|orders| - 1], orders[|orders| - 1];
      ExaminedSay(v, init, m);
      OneExaminedSays(v, o, m);
      HasAppend(ExaminedEmissions(v, init), if Examined(v, o) then OrderEmissions(v, o) else [], m);
      forall d ensures d in orders <==> d in init || d == o {}
    }
  }

  lemma OneExaminedSays(v: View, o: Order, m: Statement)
    requires Identified(v) && Stale(v) == {}
    ensures Has(if Examined(v, o) then OrderEmissions(v, o) else [], m) <==>
              Enabled(v, m.rule) && Ripe(v, o) && OrderSays(v, o, m)
  {
    hide Identified, Stale, Has, StatementOf, Enabled, OrderSays, PaymentEmissions, SettledEmissions, Examined, Ripe,
      Held;
    RipeIs(v, o);
    NoneHas(m);
    if Ripe(v, o) { OrderReports(v, o, m); }
  }

  lemma StrayIs(v: View, p: Payment)
    requires Identified(v) && Stale(v) == {} && p in v.payments
    ensures Stray(v, p) <==> Loose(v, p) && !OutsideCoverage(v, p) && p.storeHint == v.base.storeId
  {
    hide Matched, Mismatched, Group, Linked, Garbled, Belongs, InReach, Through, Stale, BlockedByMatching, Points;
    ReachIs(v, p.changedAt);
    UnclaimedIs(v, p);
    if p.id !in Claimed(v) { UnblockedIs(v, p); }
  }

  lemma UnclaimedIs(v: View, p: Payment)
    requires Identified(v) && p in v.payments
    ensures p.id !in Claimed(v) <==> forall o :: Linked(v, o) ==> !Belongs(v, o, p)
  {
    hide Matched, Group, Linked, Belongs, Identified;
    forall o { LinkedIs(v, o); }
    forall o, q { BelongsIs(v, o, q); }
    OnlyPayment(v, p);
    forall o, q | q in Group(v, o) ensures q in v.payments { BelongsAreKnown(v, o, q); }
    forall o | Linked(v, o) ensures o in v.orders { LinkedAreKnown(v, o); }
  }

  lemma UnblockedIs(v: View, p: Payment)
    requires Identified(v) && p in v.payments && p.id !in Claimed(v)
    ensures PaymentTag(p.id) !in BlockedByMatching(v) <==> forall o :: Garbled(v, o) ==> !Points(o, p)
  {
    hide Mismatched, Garbled, Points, Resolved, Contested, Claimed, Identified;
    forall o { LinkedIs(v, o); }
    forall a, b { TagsApart(a, b); }
    forall o ensures p.id in Resolved(v, o) <==> Points(o, p) { PointsIs(v, o, p); }
    forall o | Garbled(v, o) ensures o in v.orders { GarbledAreKnown(v, o); }
    forall o ensures PaymentTag(p.id) in ConflictIds(v, o) <==> Points(o, p) {}
    forall id | id in Claimed(v) ensures PaymentTag(p.id) !in ClaimIds(v, id) {}
  }

  lemma GarbledAreKnown(v: View, o: Order)
    requires Garbled(v, o)
    ensures o in v.orders
  {
  }

  lemma UnmatchedSays(v: View, p: Payment, m: Statement)
    requires Identified(v) && Stale(v) == {} && p in v.payments
    ensures Has(LooseEmissions(v, p), m) <==> Enabled(v, m.rule) && StraySays(v, p, m)
  {
    hide Identified, Stale, Has, When, Make, StatementOf, Enabled, Stray, Loose, OutsideCoverage, Due, Eligible;
    StrayIs(v, p);
    DueIs(v, p);
    MadeStatement(v, PI002, {PaymentTag(p.id)}, Some(p.received), 90, Eligible(v.base.policy, p),
      UnmatchedPayment(p, v.base.storeId));
    UnmatchedNames(v, p);
    HasWhen(v, Loose(v, p) && !OutsideCoverage(v, p) && p.storeHint == v.base.storeId, UnmatchedProposal(v, p), m);
  }

  lemma {:induction false} UnmatchedSay(v: View, payments: seq<Payment>, m: Statement)
    requires Identified(v) && Stale(v) == {} && forall p :: p in payments ==> p in v.payments
    ensures Has(UnclaimedEmissions(v, payments), m) <==>
              Enabled(v, m.rule) && exists p :: p in payments && StraySays(v, p, m)
  {
    hide Identified, Stale, StatementOf, Enabled, StraySays, LooseEmissions;
    if payments != [] {
      var init, p := payments[..|payments| - 1], payments[|payments| - 1];
      UnmatchedSay(v, init, m);
      UnmatchedSays(v, p, m);
      HasAppend(UnclaimedEmissions(v, init), LooseEmissions(v, p), m);
      forall d ensures d in payments <==> d in init || d == p {}
    }
  }

  // ----- the evidence -----

  /** The order, the payments that belong to it, and those that gave a duplicate back. */
  ghost predicate OrderTold(v: View, o: Order, f: Facts) {
    && f.OrderFacts? && f.order == o
    && Distinct(f.payments) && ToSet(f.payments) == (set p | p in v.payments && Belongs(v, o, p))
    && ToSet(f.compensatedIds)
      == if KeptOne(v, o) then set p | p in v.payments && Paid(v, o, p) && GivenBack(v, p) :: p.id else {}
  }

  ghost predicate RefundsTold(v: View, o: Order, f: Facts) {
    && f.RefundFacts? && OrderTold(v, o, f.base)
    && ToSet(f.stripeRefunds) == Counted(v, o) && ToSet(f.wooRefunds) == Recorded(v, o)
    && f.stripeMinor == Sum(Counted(v, o)) && f.wooMinor == o.refunded.minor
    && f.manualStatusPossible == (o.status == "refunded")
  }

  ghost predicate CandidatesTold(v: View, o: Order, f: Facts) {
    && f.MissingPayment? && OrderTold(v, o, f.base)
    && ToSet(f.candidateIds) == (set p | p in v.payments && p.amount == o.amount
                                   && p.createdAt <= o.createdAt + 600 && o.createdAt <= p.createdAt + 600 :: p.id)
    && f.candidateConfidence == (if f.candidateIds == [] then 0 else 40)
  }

  /** What the evidence of a report about an order contains. */
  ghost predicate Told(v: View, o: Order, rule: Rule, f: Facts) {
    match rule
    case PI001 => OrderTold(v, o, f)
    case PI003 => CandidatesTold(v, o, f)
    case PI004 => OrderTold(v, o, f)
    case PI005 => OrderTold(v, o, f)
    case PI006 => RefundsTold(v, o, f)
    case PI007 => RefundsTold(v, o, f)
    case PI008 =>
      if OneUnit(v, o) then RefundsTold(v, o, f) else f.RefundCurrencyConflict? && OrderTold(v, o, f.base)
    case _ => false
  }

  lemma BaseTold(v: View, o: Order)
    requires Identified(v) && Stale(v) == {}
    ensures OrderTold(v, o, BaseFacts(v, o))
  {
    hide Identified, Stale, Belongs, Group, GivenBack, Paid, Compensated, Receipts, Corrected, KeptOne, Returned;
    KeptOneIs(v, o);
    ListingEmpty(Group(v, o), PaymentId);
    ListingEmpty(Compensated(v, o), Self);
    forall p ensures p in Group(v, o) <==> p in v.payments && Belongs(v, o, p) {
      BelongsIs(v, o, p);
      if Belongs(v, o, p) { BelongsAreKnown(v, o, p); }
    }
    CompensatedAre(v, o);
  }

  lemma CompensatedAre(v: View, o: Order)
    requires Identified(v) && Stale(v) == {}
    ensures Compensated(v, o) == set p | p in v.payments && Paid(v, o, p) && GivenBack(v, p) :: p.id
  {
    hide Identified, Stale, Receipts, GivenBack, Paid, Returned;
    forall p ensures p in Receipts(v, o) <==> p in v.payments && Paid(v, o, p) {
      PaidIs(v, o, p);
      if Paid(v, o, p) { PaidAreKnown(v, o, p); }
    }
    forall p ensures GivenBack(v, p) <==> Returned(v, p) { GivenBackIs(v, p); }
  }

  lemma PaidAreKnown(v: View, o: Order, p: Payment)
    requires Paid(v, o, p)
    ensures p in v.payments
  {
  }

  lemma {:induction false} PairsTell(v: View, o: Order, receipts: seq<Payment>, q: Proposal)
    requires q in PairEmissions(v, o, receipts)
    ensures q.rule in {PI001, PI005} && q.evidence.facts == BaseFacts(v, o)
  {
    hide BaseFacts, Listing;
    var init := receipts[..|receipts| - 1];
    if q in PairEmissions(v, o, init) { PairsTell(v, o, init, q); }
  }

  lemma SinglesTell(v: View, o: Order, rule: Rule, risk: Money)
    requires Identified(v) && Stale(v) == {}
    ensures DuplicateProposal(v, o).evidence.facts == BaseFacts(v, o)
    ensures CandidatesTold(v, o, MissingProposal(v, o).evidence.facts)
    ensures MixedCurrencyProposal(v, o).evidence.facts == RefundCurrencyConflict(BaseFacts(v, o))
    ensures RefundsTold(v, o, RefundProposal(v, o, rule, risk).evidence.facts)
  {
    hide Identified, Stale, BaseFacts, OrderTold, RefundsTold, CandidatesTold, StripeRefunds, WooRefunds, Sum, GroupIds,
      Latest, Listing, Resembles;
    MissingTells(v, o);
    RefundsTell(v, o);
  }

  lemma RefundsTell(v: View, o: Order)
    requires Identified(v) && Stale(v) == {}
    ensures RefundsTold(v, o, RefundFacts(BaseFacts(v, o), Listing(StripeRefunds(v, o), RefundId),
              Listing(WooRefunds(v, o), RefundId), Sum(StripeRefunds(v, o)), o.refunded.minor, o.status == "refunded"))
  {
    hide Identified, Stale, BaseFacts, OrderTold, Counted, Recorded, StripeRefunds, WooRefunds, Sum;
    BaseTold(v, o);
    CountedIs(v, o);
    ListingEmpty(StripeRefunds(v, o), RefundId);
    ListingEmpty(WooRefunds(v, o), RefundId);
  }

  lemma MissingTells(v: View, o: Order)
    requires Identified(v) && Stale(v) == {}
    ensures CandidatesTold(v, o, MissingProposal(v, o).evidence.facts)
  {
    hide Identified, Stale, BaseFacts, OrderTold;
    BaseTold(v, o);
    ListingEmpty(set p | p in v.payments && Resembles(p, o) :: p.id, Self);
    forall p ensures Resembles(p, o) <==>
        p.amount == o.amount && p.createdAt <= o.createdAt + 600 && o.createdAt <= p.createdAt + 600 {}
    hide Resembles;
  }

  lemma OrderTells(v: View, o: Order, q: Proposal)
    requires Identified(v) && Stale(v) == {} && Ripe(v, o) && q in OrderEmissions(v, o)
    ensures Told(v, o, q.rule, q.evidence.facts)
  {
    hide Identified, Stale, Ripe, Listing, BaseFacts, OrderTold, RefundsTold, CandidatesTold, Receipts, PairEmissions,
      DuplicateProposal, MissingProposal, MixedCurrencyProposal, RefundProposal, Difference, Corrected, StageOf, Sum,
      OneUnit, StripeRefunds;
    BaseTold(v, o);
    StageIs(v, o);
    MissingRule(v, o);
    var receipts := Listing(Receipts(v, o), PaymentId);
    SinglesTell(v, o, PI006, o.amount);
    forall rule, risk ensures RefundsTold(v, o, RefundProposal(v, o, rule, risk).evidence.facts) {
      SinglesTell(v, o, rule, risk);
    }
    if q in PairEmissions(v, o, receipts) {
      PairsTell(v, o, receipts, q);
    } else if q in PaymentEmissions(v, o) {
      assert q == DuplicateProposal(v, o) || q == MissingProposal(v, o);
    } else {
      assert q in SettledEmissions(v, o);
    }
  }
}
