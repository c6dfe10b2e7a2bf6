/** What an evaluation as a whole says about a snapshot: which reports it makes, and what its silence means. */
module EngineVerdict {
  import opened Wrappers
  import opened Ordering
  import opened Domain
  import opened EngineSpec
  import opened EngineLemmas
  import opened EngineProperties
  import opened EngineKeys
  import opened EngineMeaning
  import opened EngineReports

  // ----- which reports are made -----

  /** The source was completely covered over the window, observed recently, with a clock that is about right. */
  ghost predicate Current(s: Snapshot, source: string) {
    exists c :: c in s.coverage && c.source == source
      && c.complete && c.coveredFrom <= s.windowFrom <= c.coveredThrough <= s.now
      && s.now - c.coveredThrough <= s.policy.freshness
      && c.observedAt <= s.now <= c.observedAt + s.policy.freshness
      && -300 <= c.clockOffsetSeconds <= 300
  }

  ghost predicate UpToDate(s: Snapshot) {
    && Current(s, "stripe_payments") && Current(s, "stripe_refunds")
    && Current(s, "woo_orders") && Current(s, "woo_refunds")
  }

  ghost predicate Trusted(s: Snapshot) { UpToDate(s) && s.linkVerified && !s.linkConflict }

  lemma UpToDateIs(s: Snapshot, codec: Codec)
    ensures Stale(ViewOf(s, codec)) == {} <==> UpToDate(s)
  {
    var v := ViewOf(s, codec);
    forall k ensures Covered(v, k) <==> Current(s, k) { CurrentIs(s, codec, k); }
    hide Covered, Current, ViewOf;
    forall k ensures k in Stale(v) <==> IsRequired(k) && !Current(s, k) {}
  }

  lemma CurrentIs(s: Snapshot, codec: Codec, source: string)
    ensures Covered(ViewOf(s, codec), source) <==> Current(s, source)
  {
    var v := ViewOf(s, codec);
    assert v.base.now == s.now && v.base.windowFrom == s.windowFrom && v.base.policy == s.policy;
    assert forall c :: c in v.coverage <==> c in s.coverage;
  }

  lemma EmissionsSay(v: View, m: Statement)
    requires Identified(v) && Stale(v) == {}
    ensures Has(Emissions(v), m) <==> Enabled(v, m.rule) && Grounded(v, m)
  {
    hide Identified, Stale, Has, StatementOf, Enabled, ConflictEmissions, ClaimEmissions, ExaminedEmissions,
      UnclaimedEmissions, Listing, Ripe, OrderSays, StraySays, GarbledSays, DisputedSays, Claimed;
    var orders, ids := Listing(v.orders, OrderId), Listing(Claimed(v), Self);
    var payments := Listing(v.payments, PaymentId);
    ListingEmpty(v.orders, OrderId);
    ListingEmpty(Claimed(v), Self);
    ListingEmpty(v.payments, PaymentId);
    ClaimedAreKnown(v);
    ConflictsSay(v, orders, m);
    ClaimsSay(v, ids, m);
    ExaminedSay(v, orders, m);
    UnmatchedSay(v, payments, m);
    Subjects(v, m);
    var a, b, c, d := ConflictEmissions(v, orders), ClaimEmissions(v, ids), ExaminedEmissions(v, orders),
      UnclaimedEmissions(v, payments);
    HasAppend(a + b + c, d, m);
    HasAppend(a + b, c, m);
    HasAppend(a, b, m);
  }

  lemma ClaimedAreKnown(v: View)
    ensures forall id :: id in Claimed(v) ==> Known(v, id)
  {
  }

  /** Reports are about orders and payments of the snapshot. */
  lemma Subjects(v: View, m: Statement)
    requires Identified(v)
    ensures forall o :: Ripe(v, o) || GarbledSays(v, o, m) ==> o in v.orders
    ensures forall p :: StraySays(v, p, m) ==> p in v.payments
    ensures forall p :: DisputedSays(v, p, m) ==> p in v.payments && p.id in Claimed(v)
  {
    hide Identified, OrderSays, Matched, Belongs, Points, Clear, Group;
    forall p | DisputedSays(v, p, m) ensures p in v.payments && p.id in Claimed(v) {
      var o :| Linked(v, o) && Belongs(v, o, p);
      LinkedIs(v, o);
      BelongsIs(v, o, p);
      BelongsAreKnown(v, o, p);
    }
  }

  /** What is called for, as the coverage and the link of the store permit. */
  ghost predicate CalledFor(s: Snapshot, codec: Codec, m: Statement) {
    if !UpToDate(s) then m == Statement(PI009, {"store:" + s.storeId}, None, 100, s.now)
    else if !s.linkVerified || s.linkConflict then
      s.linkConflict && m == Statement(PI010, {"store:" + s.storeId}, None, 100, s.now)
    else Grounded(ViewOf(s, codec), m)
  }

  /** Every rule can be evaluated unless it is disabled, or the data cannot be trusted. */
  lemma RulesEvaluated(s: Snapshot, codec: Codec, e: Evaluation, rule: Rule)
    requires Answer(s, codec) == Ok(e)
    ensures rule in e.evaluatedRules <==>
              && rule !in s.policy.disabledRules
              && (UpToDate(s) || rule == PI009)
              && ((s.linkVerified && !s.linkConflict) || rule == PI009 || (rule == PI010 && UpToDate(s)))
  {
    hide InputError, Stale, UpToDate, Emissions, Overflows, Blocked, Warnings, Digest, SortBy, Make, Listing, ViewOf,
      When, EnabledRules;
    UpToDateIs(s, codec);
    ViewKeeps(s, codec);
    EnabledRulesAre(s.policy, rule);
  }

  lemma EnabledRulesAre(policy: Policy, rule: Rule)
    ensures rule in EnabledRules(policy) <==> rule !in policy.disabledRules
  {
    AllRules(rule);
  }

  lemma AllRules(rule: Rule)
    ensures rule in RULE_CODES
  {
    match rule
    case PI001 => assert RULE_CODES[0] == rule;
    case PI002 => assert RULE_CODES[1] == rule;
    case PI003 => assert RULE_CODES[2] == rule;
    case PI004 => assert RULE_CODES[3] == rule;
    case PI005 => assert RULE_CODES[4] == rule;
    case PI006 => assert RULE_CODES[5] == rule;
    case PI007 => assert RULE_CODES[6] == rule;
    case PI008 => assert RULE_CODES[7] == rule;
    case PI009 => assert RULE_CODES[8] == rule;
    case PI010 => assert RULE_CODES[9] == rule;
  }

  lemma ViewKeeps(s: Snapshot, codec: Codec)
    ensures var v := ViewOf(s, codec);
      && v.codec == codec && v.base.now == s.now && v.base.windowFrom == s.windowFrom && v.base.policy == s.policy
      && v.base.storeId == s.storeId && v.base.linkVerified == s.linkVerified && v.base.linkConflict == s.linkConflict
  {
  }

  lemma SortedHas(qs: seq<Proposal>, m: Statement)
    ensures Has(SortBy(qs, ProposalKey), m) <==> Has(qs, m)
  {
    hide StatementOf, SortBy;
    SortBySorts(qs, ProposalKey);
    SameElements(qs, SortBy(qs, ProposalKey));
    forall q ensures q in qs <==> q in SortBy(qs, ProposalKey) {
      assert q in qs <==> q in ToSet(qs);
      assert q in SortBy(qs, ProposalKey) <==> q in ToSet(SortBy(qs, ProposalKey));
    }
  }

  lemma EnabledIffNotDisabled(v: View, rule: Rule)
    ensures Enabled(v, rule) <==> rule !in v.base.policy.disabledRules
  {
    AllRules(rule);
  }

  /**
   The reports of an evaluation are exactly those that are called for and whose rules are evaluated: subject, amount at
   risk, confidence and time included.
   */
  lemma ReportsAre(s: Snapshot, codec: Codec, e: Evaluation, m: Statement)
    requires Answer(s, codec) == Ok(e)
    ensures (exists q :: q in e.proposals && StatementOf(q) == m) <==>
              m.rule in e.evaluatedRules && CalledFor(s, codec, m)
  {
    hide InputError, Identified, Stale, UpToDate, Emissions, Overflows, Blocked, Warnings, Digest, SortBy, Make,
      Listing, ViewOf, StatementOf, Grounded, When, EnabledRules, Filter, Enabled;
    ChecksIdentify(s, codec);
    RulesEvaluated(s, codec, e, m.rule);
    UpToDateIs(s, codec);
    ViewKeeps(s, codec);
    var v := ViewOf(s, codec);
    EnabledIffNotDisabled(v, m.rule);
    assert (exists q :: q in e.proposals && StatementOf(q) == m) <==> Has(e.proposals, m);
    if Stale(v) != {} {
      StoreSays(v, true, PI009, StaleSources(Listing(Stale(v), Self)), m);
    } else if !s.linkVerified || s.linkConflict {
      StoreSays(v, s.linkConflict, PI010, LinkConflict, m);
    } else {
      SortedHas(Emissions(v), m);
      EmissionsSay(v, m);
    }
  }

  lemma StoreSays(v: View, applies: bool, rule: Rule, facts: Facts, m: Statement)
    ensures Has(When(v, applies, Make(v, rule, {"store:" + v.base.storeId}, None, 100, v.base.now, facts)), m) <==>
              applies && Enabled(v, m.rule) && m == Statement(rule, {"store:" + v.base.storeId}, None, 100, v.base.now)
  {
    hide Make, When, Enabled, StatementOf;
    var q := Make(v, rule, {"store:" + v.base.storeId}, None, 100, v.base.now, facts);
    MadeStatement(v, rule, {"store:" + v.base.storeId}, None, 100, v.base.now, facts);
    RuleOf(q);
    HasWhen(v, applies, q, m);
  }

  lemma RuleOf(q: Proposal)
    ensures StatementOf(q).rule == q.rule
  {
  }

  /** Key, severity, readiness and evidence of whatever is reported. */
  lemma ProposalsStamped(s: Snapshot, codec: Codec, e: Evaluation, q: Proposal)
    requires Answer(s, codec) == Ok(e) && q in e.proposals
    ensures Stamped(ViewOf(s, codec), q)
  {
    hide InputError, Stale, Emissions, Overflows, Blocked, Warnings, Digest, SortBy, Make, Listing, ViewOf, Stamped,
      EnabledRules, Filter, Enabled;
    var v := ViewOf(s, codec);
    forall rule, ids, facts ensures Stamped(v, Make(v, rule, ids, None, 100, v.base.now, facts)) {
      MakeStamped(v, rule, ids, None, 100, v.base.now, facts);
    }
    if Stale(v) == {} && v.base.linkVerified && !v.base.linkConflict {
      SortBySorts(Emissions(v), ProposalKey);
      SameElements(Emissions(v), SortBy(Emissions(v), ProposalKey));
      assert q in ToSet(SortBy(Emissions(v), ProposalKey));
      AllStamped(v, q);
    }
  }

  // ----- what is blocked -----

  /** A linked order that is judged, but whose refunds are too recent or do not add up. */
  ghost predicate Unjudged(v: View, o: Order) {
    Ripe(v, o) && (!RefundsInReach(v, o) || (OneUnit(v, o) && !Sane(v, o)))
  }

  lemma OrderBlockedIff(v: View, o: Order)
    requires Identified(v) && Stale(v) == {} && o in v.orders
    ensures OrderTag(o.id) in Blocked(v) <==> ByStripe(o) && (!Ripe(v, o) || Unjudged(v, o))
  {
    hide Identified, Stale, Blocked, Held, Clear, Untangled, RefundsInReach, OneUnit, Sane, BlockedByMatching, StageOf,
      Ripe, GroupIds;
    LinkedIs(v, o);
    RipeIs(v, o);
    if Ripe(v, o) {
      StageIs(v, o);
      HeldStages(v, o);
      BlockedForOrder(v, o);
      RipeByStripe(v, o);
    } else if ByStripe(o) {
      HeldBlocked(v, o);
    } else {
      NotStripeUnblocked(v, o);
    }
  }

  lemma RipeByStripe(v: View, o: Order)
    requires Ripe(v, o)
    ensures ByStripe(o)
  {
    hide Untangled, Clear, InReach, Belongs;
  }

  lemma HeldStages(v: View, o: Order)
    ensures !Held(v, o) ==> StageOf(v, o) in {LateRefund, MixedCurrency, Excess, Inconsistent, Judged}
  {
    hide StageOf;
    var stage := StageOf(v, o);
    assert stage.HistoryGap? || stage.Entangled? || stage.Unsettled? || stage.LateRefund? || stage.MixedCurrency?
        || stage.Excess? || stage.Inconsistent? || stage.Judged?;
  }

  lemma HeldBlocked(v: View, o: Order)
    requires Identified(v) && o in v.orders && ByStripe(o) && (Examined(v, o) ==> Held(v, o))
    ensures OrderTag(o.id) in Blocked(v)
  {
    hide Identified, Clear, Blocked, StageOf, Claimed, Contested, GroupIds;
    LinkedIs(v, o);
    OwnTagInGroup(v, o);
    BlockedParts(v, OrderTag(o.id));
    if Garbled(v, o) {
      assert OrderTag(o.id) in ConflictIds(v, o);
      assert OrderTag(o.id) in BlockedByMatching(v);
    } else if Examined(v, o) {
      assert OrderTag(o.id) in OrderBlocks(v, o);
      assert OrderTag(o.id) in BlockedByOrders(v, v.orders);
    } else {
      assert OrderTag(o.id) in BlockedByMatching(v);
    }
  }

  lemma BlockedParts(v: View, i: string)
    ensures i in Blocked(v) <==>
              i in BlockedByMatching(v) || i in BlockedByOrders(v, v.orders) || i in BlockedLoose(v, v.payments)
  {
    hide BlockedByMatching, BlockedByOrders, BlockedLoose;
  }

  lemma NotStripeUnblocked(v: View, o: Order)
    requires Identified(v) && o in v.orders && !ByStripe(o)
    ensures OrderTag(o.id) !in Blocked(v)
  {
    hide Identified, Clear, BlockedByMatching, OutsideCoverage, Loose;
    LinkedIs(v, o);
    assert !Examined(v, o);
    GrowthIrrelevant(v, v.orders - {o}, o);
    forall p | p in v.payments ensures OrderTag(o.id) !in LooseBlocks(v, p) { TagsApart(o.id, p.id); }
    NotStripeUnmatched(v, o);
  }

  lemma NotStripeUnmatched(v: View, o: Order)
    requires Identified(v) && o in v.orders && !Matched(v, o) && !Mismatched(v, o)
    ensures OrderTag(o.id) !in BlockedByMatching(v)
  {
    hide Conflicting, Group, Resolved, Contested, Claimed, IsStripe;
    forall a, b { TagsApart(a, b); }
    forall a, b ensures OrderTag(a) == OrderTag(b) <==> a == b { TagsApart(a, b); }
    forall d | d in v.orders && d.id == o.id ensures d == o { assert OrderId(d) == OrderId(o); }
  }

  /** The order shares a payment with another. */
  ghost predicate Shares(v: View, o: Order) { exists q :: Belongs(v, o, q) && Disputed(v, q) }

  /**
   A payment is blocked when it is disputed, found by a garbled order, held back with its order, or outside the coverage
   on its own. The other payments of an order that shares one are passed over in silence: they are not blocked.
   */
  ghost predicate Withheld(v: View, p: Payment) {
    || Disputed(v, p)
    || (exists o :: Garbled(v, o) && Points(o, p))
    || (exists o :: Linked(v, o) && Belongs(v, o, p) && !Shares(v, o) && !Ripe(v, o))
    || ((forall o :: Linked(v, o) ==> !Belongs(v, o, p)) && p.status == "succeeded"
        && (p.createdAt < v.base.windowFrom || !InReach(v, p.changedAt)))
  }

  lemma PaymentBlockedIff(v: View, p: Payment)
    requires Identified(v) && Stale(v) == {} && p in v.payments
    ensures PaymentTag(p.id) in Blocked(v) <==> Withheld(v, p)
  {
    hide Identified, Stale, Blocked, Garbled, Linked, Belongs, Ripe, Points, InReach, Claimed, Shares;
    UnclaimedIs(v, p);
    if o :| Linked(v, o) && Belongs(v, o, p) {
      ClaimedBlockedIff(v, o, p);
    } else {
      UnblockedIs(v, p);
      UnclaimedBlockedIff(v, p);
    }
  }

  lemma UnclaimedBlockedIff(v: View, p: Payment)
    requires Identified(v) && Stale(v) == {} && p in v.payments && p.id !in Claimed(v)
    ensures PaymentTag(p.id) in Blocked(v) <==>
              PaymentTag(p.id) in BlockedByMatching(v)
              || (p.status == "succeeded" && (p.createdAt < v.base.windowFrom || !InReach(v, p.changedAt)))
  {
    hide Stale, BlockedByMatching, BlockedByOrders, InReach, Through, Claimed;
    ReachIs(v, p.changedAt);
    UnclaimedUntouched(v, v.payments - {p}, p);
    assert v.payments == (v.payments - {p}) + {p};
    assert PaymentTag(p.id) in BlockedLoose(v, v.payments) <==> PaymentTag(p.id) in LooseBlocks(v, p);
  }

  lemma ClaimedBlockedIff(v: View, o: Order, p: Payment)
    requires Identified(v) && Stale(v) == {} && Linked(v, o) && Belongs(v, o, p)
    ensures PaymentTag(p.id) in Blocked(v) <==>
              || Disputed(v, p)
              || (exists d :: Garbled(v, d) && Points(d, p))
              || (exists d :: Linked(v, d) && Belongs(v, d, p) && !Shares(v, d) && !Ripe(v, d))
  {
    hide Identified, Stale, Blocked, Garbled, Linked, Belongs, Ripe, Points, Shares, BlockedByMatching, Disputed;
    BelongsAreKnown(v, o, p);
    TangledIs(v, o, p);
    if !Disputed(v, p) {
      SoleOwner(v, o, p);
      SharesIs(v, o);
      RipeIs(v, o);
      if !Shares(v, o) && !Ripe(v, o) {
        UnripeBlocked(v, o, p);
      } else if PaymentTag(p.id) !in BlockedByMatching(v) {
        NotBlockedLater(v, o, p);
      } else {
        BlockedParts(v, PaymentTag(p.id));
      }
    } else {
      BlockedParts(v, PaymentTag(p.id));
    }
  }

  lemma SoleOwner(v: View, o: Order, p: Payment)
    requires Linked(v, o) && Belongs(v, o, p) && !Disputed(v, p)
    ensures forall d :: Linked(v, d) && Belongs(v, d, p) ==> d == o
  {
    hide Linked, Belongs;
  }

  /** A claimed payment is blocked by the matching when it is disputed or found by a garbled order. */
  lemma TangledIs(v: View, o: Order, p: Payment)
    requires Identified(v) && Linked(v, o) && Belongs(v, o, p) && p in v.payments
    ensures PaymentTag(p.id) in BlockedByMatching(v) <==> Disputed(v, p) || exists d :: Garbled(v, d) && Points(d, p)
  {
    hide Identified, Linked, Garbled, Belongs, Points, Resolved, Mismatched, Contested, Claimants, Disputed, Claimed;
    ClaimantsAre(v, p);
    UnclaimedIs(v, p);
    forall a, b ensures OrderTag(a) != PaymentTag(b) { TagsApart(a, b); }
    forall a, b ensures PaymentTag(a) == PaymentTag(b) <==> a == b { TagsApart(a, b); }
    forall d { LinkedIs(v, d); }
    forall d ensures p.id in Resolved(v, d) <==> Points(d, p) { PointsIs(v, d, p); }
    forall d | Garbled(v, d) ensures d in v.orders { GarbledAreKnown(v, d); }
    forall d ensures PaymentTag(p.id) in ConflictIds(v, d) <==> Points(d, p) {}
    forall id ensures PaymentTag(p.id) in ClaimIds(v, id) <==> id == p.id {}
    hide ConflictIds, ClaimIds, OrderTag, PaymentTag;
    assert p.id in Claimed(v);
    var tag := PaymentTag(p.id);
    if d :| Garbled(v, d) && Points(d, p) {
      assert d in v.orders && Mismatched(v, d) && tag in ConflictIds(v, d);
    } else {
      forall d | d in v.orders && Mismatched(v, d) ensures tag !in ConflictIds(v, d) { assert Garbled(v, d); }
    }
    if Disputed(v, p) {
      assert Contested(v, p.id) && tag in ClaimIds(v, p.id);
    } else {
      forall id | Contested(v, id) ensures tag !in ClaimIds(v, id) {}
    }
  }

  /** An order is blocked by the matching when it is garbled or shares a payment. */
  lemma SharesIs(v: View, o: Order)
    requires Identified(v) && Linked(v, o)
    ensures OrderTag(o.id) in BlockedByMatching(v) <==> Shares(v, o)
  {
    hide Identified, Linked, Garbled, Belongs, Points, Resolved, Mismatched, Contested, Claimants, Disputed, Claimed;
    forall a, b ensures OrderTag(a) != PaymentTag(b) { TagsApart(a, b); }
    forall a, b ensures OrderTag(a) == OrderTag(b) <==> a == b { TagsApart(a, b); }
    LinkedAreKnown(v, o);
    forall d | Mismatched(v, d) ensures OrderTag(o.id) !in ConflictIds(v, d) { OtherMismatch(v, o, d); }
    if q :| Belongs(v, o, q) && Disputed(v, q) {
      BelongsAreKnown(v, o, q);
      ClaimantsAre(v, q);
      UnclaimedIs(v, q);
      assert o.id in Claimants(v, q.id);
      assert OrderTag(o.id) in ClaimIds(v, q.id);
    }
    if id :| id in Claimed(v) && Contested(v, id) && OrderTag(o.id) in ClaimIds(v, id) {
      ClaimedAreKnown(v);
      var q :| q in v.payments && q.id == id;
      ClaimantsAre(v, q);
      var d :| d in v.orders && Linked(v, d) && Belongs(v, d, q) && d.id == o.id;
      SameOrder(v, d, o);
      assert Belongs(v, o, q) && Disputed(v, q);
    }
  }

  lemma OtherMismatch(v: View, o: Order, d: Order)
    requires Identified(v) && Linked(v, o) && Mismatched(v, d)
    ensures OrderTag(o.id) !in ConflictIds(v, d)
  {
    hide Identified, Clear, Conflicting, Resolved;
    LinkedIs(v, d);
    forall a, b ensures OrderTag(a) != PaymentTag(b) { TagsApart(a, b); }
    TagsApart(o.id, d.id);
    if o.id == d.id { SameOrder(v, d, o); }
  }

  /** What is not blocked by the matching is not blocked later, unless its order is held back. */
  lemma NotBlockedLater(v: View, o: Order, p: Payment)
    requires Identified(v) && Stale(v) == {} && Linked(v, o) && Belongs(v, o, p) && !Disputed(v, p)
    requires Shares(v, o) || Ripe(v, o)
    requires PaymentTag(p.id) !in BlockedByMatching(v)
    ensures PaymentTag(p.id) !in Blocked(v)
  {
    hide Stale, Linked, Belongs, Ripe, BlockedByMatching, Group, Matched, Disputed, Shares, StageOf, OutsideCoverage,
      Points;
    BelongsIs(v, o, p);
    LinkedIs(v, o);
    SharesIs(v, o);
    RipeIs(v, o);
    LinkedAreKnown(v, o);
    assert p.id in Claimed(v);
    forall q | q in v.payments ensures PaymentTag(p.id) !in LooseBlocks(v, q) { TagsApart(p.id, q.id); }
    forall d | d in v.orders && Examined(v, d) ensures PaymentTag(p.id) !in OrderBlocks(v, d) {
      if d == o {
        NotOwnBlock(v, o, p);
      } else {
        OthersBlock(v, o, p, d);
      }
    }
  }

  lemma OthersBlock(v: View, o: Order, p: Payment, d: Order)
    requires Identified(v) && Linked(v, o) && Belongs(v, o, p) && !Disputed(v, p) && Matched(v, d) && d != o
    ensures PaymentTag(p.id) !in OrderBlocks(v, d)
  {
    hide Identified, Linked, Belongs, Group, Matched, StageOf, Points;
    BlocksAreOwn(v, d);
    LinkedIs(v, d);
    SoleOwner(v, o, p);
    forall a, b ensures OrderTag(a) != PaymentTag(b) { TagsApart(a, b); }
    forall a, b ensures PaymentTag(a) == PaymentTag(b) <==> a == b { TagsApart(a, b); }
    if PaymentTag(p.id) in GroupIds(v, d) {
      var q :| q in Group(v, d) && PaymentTag(q.id) == PaymentTag(p.id);
      BelongsIs(v, d, q);
      SamePayment(v, d, q, o, p);
    }
  }

  lemma UnripeBlocked(v: View, o: Order, p: Payment)
    requires Identified(v) && Stale(v) == {} && Linked(v, o) && Belongs(v, o, p) && !Ripe(v, o) && !Shares(v, o)
    ensures PaymentTag(p.id) in Blocked(v)
  {
    hide Identified, Stale, Linked, Belongs, Ripe, Shares, Group, BlockedByMatching, StageOf, Matched, BlockedLoose;
    LinkedIs(v, o);
    LinkedAreKnown(v, o);
    BelongsIs(v, o, p);
    SharesIs(v, o);
    RipeIs(v, o);
    assert PaymentTag(p.id) in GroupIds(v, o);
    assert PaymentTag(p.id) in OrderBlocks(v, o);
  }

  ghost predicate IsTag(v: View, i: string) {
    (exists o :: o in v.orders && i == OrderTag(o.id)) || exists p :: p in v.payments && i == PaymentTag(p.id)
  }

  lemma BlockedAreTags(v: View, i: string)
    requires Identified(v) && i in Blocked(v)
    ensures IsTag(v, i)
  {
    hide Identified, IsTag, BlockedByMatching, BlockedByOrders, BlockedLoose, Blocked, OrderBlocks, Matched, GroupIds,
      OutsideCoverage, Loose;
    BlockedParts(v, i);
    if i in BlockedByMatching(v) {
      MatchingTags(v, i);
    } else if i in BlockedByOrders(v, v.orders) {
      OrdersTags(v, i);
    } else {
      LooseTags(v, i);
    }
  }

  lemma LooseTags(v: View, i: string)
    requires i in BlockedLoose(v, v.payments)
    ensures IsTag(v, i)
  {
    hide Loose, OutsideCoverage;
  }

  lemma OrdersTags(v: View, i: string)
    requires i in BlockedByOrders(v, v.orders)
    ensures IsTag(v, i)
  {
    hide OrderBlocks, Examined, Resolved;
    var o :| o in v.orders && i in OrderBlocks(v, o);
    BlocksAreOwn(v, o);
  }

  lemma MatchingTags(v: View, i: string)
    requires i in BlockedByMatching(v)
    ensures IsTag(v, i)
  {
    hide Mismatched, Contested, Matched, Group;
    ClaimedAreKnown(v);
    forall o { ResolvedIds(v, o); }
  }

  /** Blocked are the orders that cannot be judged and the payments that are held back with one or on their own. */
  lemma BlockedAre(s: Snapshot, codec: Codec, e: Evaluation, i: string)
    requires Answer(s, codec) == Ok(e) && Trusted(s)
    ensures var v := ViewOf(s, codec);
      i in e.blocked <==>
        || (exists o :: o in s.orders && i == "order:" + o.id && ByStripe(o) && (!Ripe(v, o) || Unjudged(v, o)))
        || (exists p :: p in s.payments && i == "payment:" + p.id && Withheld(v, p))
  {
    hide InputError, Identified, Stale, UpToDate, Answer, ViewOf, ByStripe, Ripe, Unjudged, Withheld, Blocked;
    var v := ViewOf(s, codec);
    AnswerParts(s, codec, e);
    forall o | o in v.orders
      ensures OrderTag(o.id) in Blocked(v) <==> ByStripe(o) && (!Ripe(v, o) || Unjudged(v, o))
    {
      OrderBlockedIff(v, o);
    }
    forall p | p in v.payments ensures PaymentTag(p.id) in Blocked(v) <==> Withheld(v, p) { PaymentBlockedIff(v, p); }
    assert forall o :: o in v.orders <==> o in s.orders;
    assert forall p :: p in v.payments <==> p in s.payments;
    if i in Blocked(v) { BlockedAreTags(v, i); }
  }

  // ----- the warnings -----

  ghost predicate OrderWarns(v: View, o: Order, w: string) {
    || (Linked(v, o) && !Shares(v, o) && o.createdAt < v.base.windowFrom
        && w == "history_outside_coverage:" + "order:" + o.id)
    || (Ripe(v, o) && RefundsInReach(v, o) && !OneUnit(v, o) && w == "refund_currency_conflict:" + o.id)
    || (Ripe(v, o) && RefundsInReach(v, o) && OneUnit(v, o) && !Bounded(v, o)
        && w == "refund_exceeds_payment:" + o.id)
    || (Ripe(v, o) && RefundsInReach(v, o) && OneUnit(v, o) && Bounded(v, o) && !AddsUp(v, o)
        && w == "woo_refund_projection_inconsistent:" + o.id)
  }

  /** A covered payment of nobody, without this store's hint. */
  ghost predicate Unattributed(v: View, p: Payment) {
    && p in v.payments && p.status == "succeeded" && p.storeHint != v.base.storeId
    && p.createdAt >= v.base.windowFrom && InReach(v, p.changedAt)
    && (forall o :: Linked(v, o) ==> !Belongs(v, o, p))
    && (forall o :: Garbled(v, o) ==> !Points(o, p))
  }

  lemma OrderWarningsAre(v: View, o: Order, w: string)
    requires Identified(v) && Stale(v) == {}
    ensures Examined(v, o) && w in OrderWarnings(v, o) <==> OrderWarns(v, o, w)
  {
    hide Identified, Stale, Linked, StageOf, Ripe, RefundsInReach, OneUnit, Bounded, AddsUp, Shares, Matched,
      BlockedByMatching, Held;
    LinkedIs(v, o);
    RipeIs(v, o);
    assert "history_outside_coverage:" + ("order:" + o.id) == "history_outside_coverage:" + "order:" + o.id;
    if Linked(v, o) { SharesIs(v, o); }
    if Ripe(v, o) {
      RipeIsLinked(v, o);
      StageIs(v, o);
      HeldStages(v, o);
      RecentOrder(v, o);
    } else if Examined(v, o) {
      HeldBack(v, o);
    }
  }

  lemma RecentOrder(v: View, o: Order)
    requires Ripe(v, o)
    ensures o.createdAt >= v.base.windowFrom
  {
    hide Linked, Untangled, Belongs, InReach;
  }

  lemma HeldBack(v: View, o: Order)
    requires Held(v, o)
    ensures StageOf(v, o) == HistoryGap <==> o.createdAt < v.base.windowFrom
    ensures StageOf(v, o) in {HistoryGap, Entangled, Unsettled}
  {
    hide GroupIds, BlockedByMatching, OrderRefunds, Receipts, WooRefunds, StripeRefunds, Sum, Through, Group;
  }

  lemma PaymentWarningsAre(v: View, p: Payment, w: string)
    requires Identified(v) && Stale(v) == {} && p in v.payments
    ensures w in LooseWarnings(v, p) <==> Unattributed(v, p) && w == "unattributed_payment:" + p.id
  {
    hide Identified, Stale, Matched, Group, Linked, Garbled, Belongs, InReach, Through, BlockedByMatching, Claimed;
    ReachIs(v, p.changedAt);
    UnclaimedIs(v, p);
    if p.id !in Claimed(v) { UnblockedIs(v, p); }
  }

  /** The warnings are those of orders that could not be judged and of payments that are nobody's. */
  lemma WarningsAre(s: Snapshot, codec: Codec, e: Evaluation, w: string)
    requires Answer(s, codec) == Ok(e) && Trusted(s)
    ensures var v := ViewOf(s, codec);
      w in e.warnings <==>
        || (exists o :: o in s.orders && OrderWarns(v, o, w))
        || (exists p :: p in s.payments && Unattributed(v, p) && w == "unattributed_payment:" + p.id)
  {
    hide InputError, Identified, Stale, UpToDate, Answer, ViewOf, OrderWarns, Unattributed, Examined, OrderWarnings,
      LooseWarnings;
    var v := ViewOf(s, codec);
    AnswerParts(s, codec, e);
    forall o { OrderWarningsAre(v, o, w); }
    forall p | p in v.payments
      ensures w in LooseWarnings(v, p) <==> Unattributed(v, p) && w == "unattributed_payment:" + p.id
    {
      PaymentWarningsAre(v, p, w);
    }
    assert forall o :: o in v.orders <==> o in s.orders;
    assert forall p :: p in v.payments <==> p in s.payments;
  }

  // ----- what silence means -----

  /** The money and the status of a shop order agree with its payments and their refunds. */
  ghost predicate Agrees(v: View, o: Order) {
    && Comparable(v, o)
    && (o.status == "processing" || o.status == "completed" ==> exists p :: Paid(v, o, p))
    && (o.status == "pending" || o.status == "failed" || o.status == "cancelled" || o.status == "on-hold" ==>
          forall p :: !Paid(v, o, p))
    && (forall p :: Paid(v, o, p) ==> p.received == o.amount)
    && (forall p, q :: Paid(v, o, p) && Paid(v, o, q) && p != q ==> KeptOne(v, o))
    && Sum(Counted(v, o)) == o.refunded.minor
    && (o.status == "refunded" ==> o.refunded.minor != 0)
  }

  /** The time at which the refunds of an order are due. */
  lemma RefundsDueSometime(v: View, o: Order, anchor: Time) returns (t: Time)
    requires Identified(v) && Stale(v) == {}
    ensures RefundsDue(v, o, anchor, t)
  {
    hide Counted, Recorded, RefundsDue, Latest, Identified, Stale, OrderRefunds;
    t := Latest({anchor} + set r | r in OrderRefunds(v, o) :: r.changedAt) + v.base.policy.refundGrace;
    RefundsDueIs(v, o, anchor, t);
  }

  lemma DuplicatesDueSometime(v: View, o: Order) returns (t: Time)
    requires Identified(v) && exists p :: Paid(v, o, p)
    ensures (exists p :: Paid(v, o, p) && Due(v, p) == t) && (forall p :: Paid(v, o, p) ==> Due(v, p) <= t)
  {
    hide Receipts, Paid, Latest, Identified, Due, Eligible;
    t := Latest(set p | p in Receipts(v, o) :: Eligible(v.base.policy, p));
    DuplicateDueIs(v, o, t);
  }

  /** Refunds that do not agree are reported. */
  lemma RefundsReported(v: View, o: Order) returns (m: Statement)
    requires Identified(v) && Stale(v) == {} && Ripe(v, o) && RefundsInReach(v, o)
    requires OneUnit(v, o) ==> Sane(v, o)
    requires !OneUnit(v, o) || Sum(Counted(v, o)) != o.refunded.minor
      || (o.status == "refunded" && o.refunded.minor == 0)
    ensures OrderSays(v, o, m) && "order:" + o.id in m.names
  {
    hide Identified, Stale, Ripe, RefundsInReach, OneUnit, Sane, Counted, Sum, RefundsDue, Rated, Paid, KeptOne, Due;
    if !OneUnit(v, o) {
      var t := RefundsDueSometime(v, o, o.changedAt);
      m := Statement(PI008, {"order:" + o.id}, Some(o.refunded), Rated(v, o), t);
    } else {
      var t := RefundsDueSometime(v, o, RefundAnchor(v, o));
      var rule :=
        if o.refunded.minor == 0 && Sum(Counted(v, o)) != 0 then PI006
        else if Sum(Counted(v, o)) == 0 then PI007
        else PI008;
      var risk := if rule == PI007 && o.refunded.minor == 0 then Some(o.amount) else Gap(v, o);
      m := Statement(rule, {"order:" + o.id}, risk, Rated(v, o), t);
    }
  }

  /** Payments that do not agree are reported. */
  lemma PaymentsReported(v: View, o: Order) returns (m: Statement)
    requires Identified(v) && Stale(v) == {} && Comparable(v, o) && !Agrees(v, o)
    requires Sum(Counted(v, o)) == o.refunded.minor && (o.status == "refunded" ==> o.refunded.minor != 0)
    ensures OrderSays(v, o, m) && "order:" + o.id in m.names
  {
    hide Identified, Stale, Comparable, Counted, Sum, RefundsDue, Rated, Paid, KeptOne, Due, Belongs, Gap;
    if p :| Paid(v, o, p) && p.received != o.amount {
      m := Statement(PI005, {"order:" + o.id, "payment:" + p.id}, Some(p.received), Rated(v, o), Due(v, p));
    } else if p, q :| Paid(v, o, p) && Paid(v, o, q) && p != q && !KeptOne(v, o) {
      var t := DuplicatesDueSometime(v, o);
      var names := {"order:" + o.id} + set x | x in v.payments && Belongs(v, o, x) :: "payment:" + x.id;
      m := Statement(PI004, names, Some(o.amount), Rated(v, o), t);
    } else if p :| Paid(v, o, p) {
      m := Statement(PI001, {"order:" + o.id, "payment:" + p.id}, Some(p.received), Rated(v, o), Due(v, p));
    } else {
      var t := (if o.paidAt.Some? then o.paidAt.value else o.changedAt) + v.base.policy.instantGrace;
      m := Statement(PI003, {"order:" + o.id}, Some(o.amount), Rated(v, o), t);
    }
  }

  lemma SomeDisagreement(v: View, o: Order) returns (m: Statement)
    requires Identified(v) && Stale(v) == {} && Ripe(v, o) && !Unjudged(v, o) && !Agrees(v, o)
    ensures OrderSays(v, o, m) && "order:" + o.id in m.names
  {
    hide Identified, Stale, Ripe, RefundsInReach, OneUnit, Sane, Counted, Sum, OrderSays, Paid, KeptOne;
    if !OneUnit(v, o) || Sum(Counted(v, o)) != o.refunded.minor || (o.status == "refunded" && o.refunded.minor == 0) {
      m := RefundsReported(v, o);
    } else {
      m := PaymentsReported(v, o);
    }
  }

  lemma AgreementSaysNothing(v: View, o: Order, m: Statement)
    requires Agrees(v, o)
    ensures !OrderSays(v, o, m)
  {
    hide Rated, Due, KeptOne, Paid, RefundsDue, Counted, Sum, Gap, Belongs, Ripe, Sane, Recorded, RefundsInReach;
  }

  lemma OrderSaysNames(v: View, o: Order, m: Statement)
    requires OrderSays(v, o, m)
    ensures "order:" + o.id in m.names
    ensures forall i :: i in m.names ==> i == "order:" + o.id || exists id: string :: i == "payment:" + id
  {
    hide Rated, Due, KeptOne, Paid, RefundsDue, Counted, Sum, Gap, Belongs, Ripe, Sane, Recorded, RefundsInReach,
      OneUnit, Comparable;
  }

  /** An order whose money agrees is not named by any report. */
  lemma AgreeingUnnamed(v: View, o: Order, m: Statement)
    requires Identified(v) && Agrees(v, o) && Grounded(v, m)
    ensures "order:" + o.id !in m.names
  {
    hide Identified, Agrees, OrderSays, Stray, Points, Belongs, Linked, Garbled, Ripe;
    forall a, b ensures "order:" + a != "payment:" + b { TagsApart(a, b); }
    forall a, b ensures "order:" + a == "order:" + b <==> a == b { TagsApart(a, b); }
    AgreeingIsRipe(v, o);
    if d :| Ripe(v, d) && OrderSays(v, d, m) {
      OrderSaysNames(v, d, m);
      RipeIsLinked(v, d);
      if d.id == o.id {
        SameOrder(v, o, d);
        AgreementSaysNothing(v, o, m);
      }
    } else if d :| GarbledSays(v, d, m) {
      GarbledAreKnown(v, d);
      if d.id == o.id {
        SameOrder(v, d, o);
        NotBoth(v, o);
      }
    } else if p :| DisputedSays(v, p, m) {
      if d :| d in v.orders && Linked(v, d) && Belongs(v, d, p) && d.id == o.id {
        SameOrder(v, d, o);
        RipeAlone(v, o, p);
      }
    }
  }

  lemma AgreeingIsRipe(v: View, o: Order)
    requires Agrees(v, o)
    ensures Ripe(v, o) && Linked(v, o) && o in v.orders
  {
    hide Ripe, Linked, Paid, KeptOne, Counted, Sum;
    RipeIsLinked(v, o);
  }

  lemma RipeIsLinked(v: View, o: Order)
    requires Ripe(v, o)
    ensures Linked(v, o) && o in v.orders
  {
    hide Untangled, Belongs, InReach;
    LinkedAreKnown(v, o);
  }

  /** The payments of a ripe order are its own. */
  lemma RipeAlone(v: View, o: Order, p: Payment)
    requires Ripe(v, o) && Belongs(v, o, p)
    ensures forall d :: Linked(v, d) && Belongs(v, d, p) ==> d == o
  {
    hide Linked, Garbled, Belongs, Points, InReach;
  }

  lemma NotBoth(v: View, o: Order)
    ensures !(Linked(v, o) && Garbled(v, o))
  {
    hide Clear;
  }

  /**
   With trusted data and every rule enabled, nothing is said of a Stripe order and it is not blocked if and only if its
   money and its status agree.
   */
  lemma SilenceIsAgreement(s: Snapshot, codec: Codec, e: Evaluation, o: Order)
    requires Answer(s, codec) == Ok(e) && Trusted(s) && s.policy.disabledRules == []
    requires o in s.orders && ByStripe(o)
    ensures "order:" + o.id !in e.blocked && (forall q :: q in e.proposals ==> "order:" + o.id !in q.identities) <==>
              Agrees(ViewOf(s, codec), o)
  {
    hide InputError, ViewOf, Identified, Stale, UpToDate, Agrees, OrderSays, Ripe, Unjudged, Blocked, Grounded, Answer,
      ByStripe, Garbled, Linked;
    var v := ViewOf(s, codec);
    AnswerParts(s, codec, e);
    OrderBlockedIff(v, o);
    if Ripe(v, o) && !Unjudged(v, o) && !Agrees(v, o) {
      var m := SomeDisagreement(v, o);
      OrderGrounds(v, o, m);
      RulesEvaluated(s, codec, e, m.rule);
      ReportsAre(s, codec, e, m);
      var q :| q in e.proposals && StatementOf(q) == m;
      assert "order:" + o.id in ToSet(q.identities);
    }
    if Agrees(v, o) {
      AgreeingIsJudged(v, o);
      forall q | q in e.proposals ensures "order:" + o.id !in q.identities {
        ReportsAre(s, codec, e, StatementOf(q));
        AgreeingUnnamed(v, o, StatementOf(q));
        assert "order:" + o.id !in ToSet(q.identities);
      }
    }
  }

  lemma AgreeingIsJudged(v: View, o: Order)
    requires Agrees(v, o)
    ensures Ripe(v, o) && !Unjudged(v, o)
  {
    hide Ripe, Paid, KeptOne, Counted, Sum, RefundsInReach, OneUnit, Sane;
  }

  lemma OrderGrounds(v: View, o: Order, m: Statement)
    requires Ripe(v, o) && OrderSays(v, o, m)
    ensures Grounded(v, m)
  {
    hide Ripe, OrderSays;
  }

  /** What the answer for trusted data is made of. */
  lemma AnswerParts(s: Snapshot, codec: Codec, e: Evaluation)
    requires Answer(s, codec) == Ok(e) && Trusted(s)
    ensures var v := ViewOf(s, codec);
      && Identified(v) && Stale(v) == {} && v.orders == ToSet(s.orders) && v.payments == ToSet(s.payments)
      && v.base.now == s.now && v.base.storeId == s.storeId
      && (forall i :: i in e.blocked <==> i in Blocked(v)) && (forall w :: w in e.warnings <==> w in Warnings(v))
  {
    ChecksIdentify(s, codec);
    UpToDateIs(s, codec);
    ViewKeeps(s, codec);
    hide InputError, Identified, Stale, UpToDate, Emissions, Overflows, Blocked, Warnings, Digest, SortBy;
    ListingEmpty(Blocked(ViewOf(s, codec)), Self);
    ListingEmpty(Warnings(ViewOf(s, codec)), Self);
  }

  // ----- what a report means -----

  /** What the rule says of the order. */
  ghost predicate Means(v: View, o: Order, rule: Rule) {
    match rule
    case PI001 =>
      && (exists p :: Paid(v, o, p))
      && (o.status == "pending" || o.status == "failed" || o.status == "cancelled" || o.status == "on-hold")
    case PI003 => (forall p :: !Paid(v, o, p)) && (o.status == "processing" || o.status == "completed")
    case PI004 => (exists p, q :: Paid(v, o, p) && Paid(v, o, q) && p != q) && !KeptOne(v, o)
    case PI005 => exists p :: Paid(v, o, p) && p.received != o.amount
    case PI006 => Comparable(v, o) && o.refunded.minor == 0 && Sum(Counted(v, o)) > 0
    case PI007 => Comparable(v, o) && Sum(Counted(v, o)) == 0 && (o.refunded.minor > 0 || o.status == "refunded")
    case PI008 => RefundsInReach(v, o) && (OneUnit(v, o) ==> Sane(v, o) && Sum(Counted(v, o)) != o.refunded.minor)
    case _ => false
  }

  lemma {:induction false} SumPositive(s: set<Refund>)
    requires forall r :: r in s ==> r.amount.minor >= 0
    ensures Sum(s) >= 0
  {
    if s != {} {
      var r :| r in s && Sum(s) == r.amount.minor + Sum(s - {r});
      SumPositive(s - {r});
    }
  }

  lemma CountedPositive(s: Snapshot, codec: Codec, o: Order)
    requires s.Valid()
    ensures Sum(Counted(ViewOf(s, codec), o)) >= 0
  {
    var v := ViewOf(s, codec);
    hide Counts;
    forall r | r in Counted(v, o) ensures r.amount.minor >= 0 { assert r in s.refunds && r.Valid(); }
    SumPositive(Counted(v, o));
  }

  lemma SaysMeans(v: View, o: Order, m: Statement)
    requires OrderSays(v, o, m) && Ripe(v, o) && Sum(Counted(v, o)) >= 0 && o.refunded.minor >= 0
    ensures Means(v, o, m.rule)
  {
    hide Rated, Due, KeptOne, Paid, RefundsDue, Counted, Sum, Gap, Belongs, Ripe, Sane, Recorded, RefundsInReach,
      OneUnit;
  }

  lemma ProposalIsEmission(s: Snapshot, codec: Codec, e: Evaluation, q: Proposal)
    requires Answer(s, codec) == Ok(e) && Trusted(s) && q in e.proposals
    ensures q in Emissions(ViewOf(s, codec))
  {
    hide InputError, UpToDate, Emissions, Overflows, Blocked, Warnings, Digest, SortBy, Stale;
    var v := ViewOf(s, codec);
    UpToDateIs(s, codec);
    ViewKeeps(s, codec);
    SortBySorts(Emissions(v), ProposalKey);
    SameElements(Emissions(v), SortBy(Emissions(v), ProposalKey));
    assert q in ToSet(SortBy(Emissions(v), ProposalKey));
  }

  lemma FinancialIsTrusted(s: Snapshot, codec: Codec, e: Evaluation, q: Proposal)
    requires Answer(s, codec) == Ok(e) && q in e.proposals && q.rule != PI009 && q.rule != PI010
    ensures Trusted(s)
  {
    hide Answer, UpToDate, Grounded;
    ReportsAre(s, codec, e, StatementOf(q));
  }

  /**
   A report of a financial rule other than PI-002 is about one ripe order, of which it is true, and its evidence tells
   the order's payments and refunds.
   */
  lemma ReportMeans(s: Snapshot, codec: Codec, e: Evaluation, q: Proposal) returns (o: Order)
    requires Answer(s, codec) == Ok(e) && s.Valid() && q in e.proposals
    requires q.rule in {PI001, PI003, PI004, PI005, PI006, PI007, PI008}
    ensures o in s.orders && "order:" + o.id in q.identities
    ensures Trusted(s) && Ripe(ViewOf(s, codec), o) && Means(ViewOf(s, codec), o, q.rule)
    ensures Told(ViewOf(s, codec), o, q.rule, q.evidence.facts)
  {
    hide InputError, Identified, Stale, UpToDate, OrderSays, Ripe, Answer, Means, ViewOf, Emissions, OrderEmissions,
      Snapshot.Valid, ConflictProposal, ClaimProposal, UnmatchedProposal, Told, Examined, Held, Mismatched, Contested,
      Loose, OutsideCoverage, Has;
    var v, m := ViewOf(s, codec), StatementOf(q);
    FinancialIsTrusted(s, codec, e, q);
    ProposalIsEmission(s, codec, e, q);
    AnswerParts(s, codec, e);
    var origin := EmissionOrigin(v, q);
    match origin
    case Conflict(d) => MatchingRule(v, d);
    case Claim(id) => MatchingRuleOfClaim(v, id);
    case Unmatched(p) => UnmatchedNames(v, p);
    case Report(d) =>
      o := d;
      RipeReport(v, o, q);
      RipeIsLinked(v, o);
      OrderSaysNames(v, o, m);
      assert "order:" + o.id in ToSet(q.identities);
      CountedPositive(s, codec, o);
      RefundedPositive(s, o);
      SaysMeans(v, o, m);
      OrderTells(v, o, q);
  }

  lemma RipeReport(v: View, o: Order, q: Proposal)
    requires Identified(v) && Stale(v) == {} && Examined(v, o) && q in OrderEmissions(v, o)
    ensures Ripe(v, o) && OrderSays(v, o, StatementOf(q))
  {
    hide Identified, Stale, Examined, Ripe, OrderSays, PaymentEmissions, SettledEmissions, StatementOf, Held;
    RipeIs(v, o);
    assert Has(OrderEmissions(v, o), StatementOf(q));
    OrderReports(v, o, StatementOf(q));
  }

  lemma RefundedPositive(s: Snapshot, o: Order)
    requires s.Valid() && o in ToSet(s.orders)
    ensures o.refunded.minor >= 0
  {
    assert o.Valid();
  }

  // ----- which snapshots have an evaluation -----

  /** Identities are unique, everything is of the store's account and mode, and the window is not in the future. */
  ghost predicate Acceptable(s: Snapshot) {
    && s.windowFrom <= s.now
    && (forall i, j :: 0 <= i < j < |s.payments| ==> s.payments[i].id != s.payments[j].id)
    && (forall i, j :: 0 <= i < j < |s.orders| ==> s.orders[i].id != s.orders[j].id)
    && (forall i, j :: 0 <= i < j < |s.coverage| ==> s.coverage[i].source != s.coverage[j].source)
    && (forall i, j :: 0 <= i < j < |s.refunds| ==>
          s.refunds[i].source != s.refunds[j].source || s.refunds[i].id != s.refunds[j].id)
    && (forall p :: p in s.payments ==> p.accountId == s.accountId && p.mode == s.mode)
    && (forall o :: o in s.orders ==> o.storeId == s.storeId && o.mode == s.mode)
    && (s.mode == "test" || s.mode == "live")
  }

  /** As many keys as members exactly when no two members share one. */
  lemma {:induction false} AsManyKeysIff<T(!new), K(!new)>(xs: seq<T>, key: T -> K)
    ensures |Keys(xs, key)| == |xs| <==> forall i, j :: 0 <= i < j < |xs| ==> key(xs[i]) != key(xs[j])
  {
    if xs != [] {
      var init, last := xs[..|xs| - 1], xs[|xs| - 1];
      assert xs == init + [last];
      assert Keys(xs, key) == Keys(init, key) + {key(last)};
      AtMostAsMany(init, key);
      AsManyKeysIff(init, key);
      assert key(last) in Keys(init, key) <==> exists i :: 0 <= i < |init| && key(init[i]) == key(last);
      assert key(last) in Keys(init, key) ==> Keys(xs, key) == Keys(init, key);
    }
  }

  /** A judged order whose difference is not an amount. */
  ghost predicate TooFarApart(v: View, o: Order) {
    && Comparable(v, o)
    && var difference := Sum(Counted(v, o)) - o.refunded.minor;
       difference > 9_223_372_036_854_775_807 || -difference > 9_223_372_036_854_775_807
  }

  lemma OverflowsIs(v: View, o: Order)
    requires Identified(v) && Stale(v) == {}
    ensures Overflows(v, o) <==> TooFarApart(v, o)
  {
    hide Identified, Stale, Examined, StageOf, Sum, Counted, StripeRefunds, Ripe, OneUnit, RefundsInReach, Sane,
      GroupIds, BlockedByMatching;
    RipeIs(v, o);
    GapIs(v, o);
    if Ripe(v, o) { StageIs(v, o); }
  }

  /** A snapshot has an evaluation exactly when it is acceptable and no trusted difference is out of range. */
  lemma EvaluatesIff(s: Snapshot, codec: Codec)
    ensures Answer(s, codec).Ok? <==>
              Acceptable(s) && (Trusted(s) ==> forall o :: o in s.orders ==> !TooFarApart(ViewOf(s, codec), o))
  {
    AcceptableIs(s);
    if InputError(s).None? {
      hide InputError, Acceptable, Identified, Stale, UpToDate, Overflows, TooFarApart, Reconciled;
      ChecksIdentify(s, codec);
      UpToDateIs(s, codec);
      ViewKeeps(s, codec);
      if Trusted(s) { ReconciledIff(s, codec); }
    }
  }

  lemma ReconciledIff(s: Snapshot, codec: Codec)
    requires Identified(ViewOf(s, codec)) && Stale(ViewOf(s, codec)) == {}
    ensures Reconciled(ViewOf(s, codec)).Ok? <==> forall o :: o in s.orders ==> !TooFarApart(ViewOf(s, codec), o)
  {
    hide Identified, Stale, Overflows, TooFarApart, Emissions, Blocked, Warnings, Digest, SortBy;
    var v := ViewOf(s, codec);
    forall o { OverflowsIs(v, o); }
    assert forall o :: o in v.orders <==> o in s.orders;
  }

  lemma AcceptableIs(s: Snapshot)
    ensures InputError(s).None? <==> Acceptable(s)
  {
    hide Keys;
    AsManyKeysIff(s.payments, PaymentId);
    AsManyKeysIff(s.orders, OrderId);
    AsManyKeysIff(s.coverage, CoverageSource);
    AsManyKeysIff(s.refunds, RefundKey);
  }

  /** The digest of an evaluation stands for its snapshot: only permuted snapshots share one. */
  lemma DigestIdentifies(a: Snapshot, b: Snapshot, codec: Codec, e: Evaluation, f: Evaluation)
    requires codec.Faithful() && forall x, y :: codec.digest(x) == codec.digest(y) ==> x == y
    requires Answer(a, codec) == Ok(e) && Answer(b, codec) == Ok(f) && e.digest == f.digest
    ensures Permuted(a, b)
  {
    hide InputError, Stale, Emissions, Overflows, Blocked, Warnings, SortBy, Make, EnabledRules;
    var v, w := ViewOf(a, codec), ViewOf(b, codec);
    ChecksIdentify(a, codec);
    ChecksIdentify(b, codec);
    assert e.digest == Digest(v) && f.digest == Digest(w);
    ViewKeeps(a, codec);
    ViewKeeps(b, codec);
    SameMultiset(a.payments, b.payments, codec.payment);
    SameMultiset(a.orders, b.orders, codec.order);
    SameMultiset(a.refunds, b.refunds, codec.refund);
    SameMultiset(a.coverage, b.coverage, codec.coverage);
  }

  lemma SameMultiset<T(!new)>(xs: seq<T>, ys: seq<T>, key: T -> string)
    requires Distinct(xs) && Distinct(ys)
    ensures Listing(ToSet(xs), key) == Listing(ToSet(ys), key) ==> multiset(xs) == multiset(ys)
  {
    DistinctMultiset(xs);
    DistinctMultiset(ys);
    ListingEmpty(ToSet(xs), key);
    ListingEmpty(ToSet(ys), key);
    if Listing(ToSet(xs), key) == Listing(ToSet(ys), key) { assert ToSet(xs) == ToSet(ys); }
  }
}
