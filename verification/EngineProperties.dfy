/** What every evaluation guarantees, proved about the specification the engine is shown to compute. */
module EngineProperties {
  import opened Wrappers
  import opened Ordering
  import opened Money
  import opened Domain
  import opened EngineSpec
  import opened EngineLemmas

  // ----- the answer does not depend on input order -----

  ghost predicate Permuted(a: Snapshot, b: Snapshot) {
    && multiset(a.payments) == multiset(b.payments) && multiset(a.orders) == multiset(b.orders)
    && multiset(a.refunds) == multiset(b.refunds) && multiset(a.coverage) == multiset(b.coverage)
    && a.(payments := [], orders := [], refunds := [], coverage := [])
      == b.(payments := [], orders := [], refunds := [], coverage := [])
  }

  lemma SameKeys<T, K>(xs: seq<T>, ys: seq<T>, key: T -> K)
    requires multiset(xs) == multiset(ys)
    ensures Keys(xs, key) == Keys(ys, key) && |xs| == |ys|
  {
    SameElements(xs, ys);
    assert forall x :: x in xs <==> x in ToSet(xs);
    assert forall x :: x in ys <==> x in ToSet(ys);
  }

  /** Reordering the inputs changes nothing: not a decision, not the evidence, not the digest. */
  lemma AnswerOrderFree(a: Snapshot, b: Snapshot, codec: Codec)
    requires Permuted(a, b)
    ensures Answer(a, codec) == Answer(b, codec)
  {
    hide Expected;
    SameKeys(a.payments, b.payments, PaymentId);
    SameKeys(a.orders, b.orders, OrderId);
    SameKeys(a.refunds, b.refunds, RefundKey);
    SameKeys(a.coverage, b.coverage, CoverageSource);
    SameElements(a.payments, b.payments);
    SameElements(a.orders, b.orders);
    SameElements(a.refunds, b.refunds);
    SameElements(a.coverage, b.coverage);
    assert forall p :: p in a.payments <==> p in ToSet(a.payments);
    assert forall p :: p in b.payments <==> p in ToSet(b.payments);
    assert forall o :: o in a.orders <==> o in ToSet(a.orders);
    assert forall o :: o in b.orders <==> o in ToSet(b.orders);
    assert ViewOf(a, codec) == ViewOf(b, codec);
    ScalarsAgree(a, b);
  }

  lemma ScalarsAgree(a: Snapshot, b: Snapshot)
    requires Permuted(a, b)
    ensures a.now == b.now && a.windowFrom == b.windowFrom && a.mode == b.mode
    ensures a.accountId == b.accountId && a.storeId == b.storeId
  {
    var e := a.(payments := [], orders := [], refunds := [], coverage := []);
    var f := b.(payments := [], orders := [], refunds := [], coverage := []);
    assert e == f;
    assert e.now == a.now && f.now == b.now && e.mode == a.mode && f.mode == b.mode;
  }

  // ----- where a proposal comes from -----

  ghost function Names(q: Proposal): set<string> { ToSet(q.identities) }

  datatype Shape = Duplicate | Missing | Pair(p: Payment) | Settled

  const SETTLED := {PI006, PI007, PI008}

  /** The shapes a proposal about one examined order can take. */
  ghost predicate ShapedBy(v: View, o: Order, q: Proposal, shape: Shape) {
    match shape
    case Duplicate => q.rule == PI004 && Names(q) == GroupIds(v, o)
    case Missing => q.rule == PI003 && Names(q) == {OrderTag(o.id)}
    case Pair(p) =>
      q.rule in {PI001, PI005} && p in Receipts(v, o) && Names(q) == {OrderTag(o.id), PaymentTag(p.id)}
    case Settled => q.rule in SETTLED && Names(q) == {OrderTag(o.id)} && StageOf(v, o) in {MixedCurrency, Judged}
  }

  lemma {:induction false} PairShape(v: View, o: Order, receipts: seq<Payment>, q: Proposal) returns (p: Payment)
    requires q in PairEmissions(v, o, receipts)
    ensures p in receipts && q.rule in {PI001, PI005} && Names(q) == {OrderTag(o.id), PaymentTag(p.id)}
  {
    hide Make, Listing;
    var init, last := receipts[..|receipts| - 1], receipts[|receipts| - 1];
    if q in PairEmissions(v, o, init) {
      p := PairShape(v, o, init, q);
      assert p in init;
    } else {
      p := last;
      PairNames(v, o, p, PI001);
      PairNames(v, o, p, PI005);
    }
  }

  lemma PairNames(v: View, o: Order, p: Payment, rule: Rule)
    ensures PairProposal(v, o, p, rule).rule == rule
    ensures Names(PairProposal(v, o, p, rule)) == {OrderTag(o.id), PaymentTag(p.id)}
  {
  }

  lemma SingleNames(v: View, o: Order, rule: Rule, risk: Money)
    ensures DuplicateProposal(v, o).rule == PI004 && Names(DuplicateProposal(v, o)) == GroupIds(v, o)
    ensures MissingProposal(v, o).rule == PI003 && Names(MissingProposal(v, o)) == {OrderTag(o.id)}
    ensures MixedCurrencyProposal(v, o).rule == PI008 && Names(MixedCurrencyProposal(v, o)) == {OrderTag(o.id)}
    ensures RefundProposal(v, o, rule, risk).rule == rule && Names(RefundProposal(v, o, rule, risk)) == {OrderTag(o.id)}
  {
  }

  lemma SettledShape(v: View, o: Order, q: Proposal)
    requires q in SettledEmissions(v, o)
    ensures ShapedBy(v, o, q, Settled)
  {
    hide StageOf, PaymentEmissions, MixedCurrencyProposal, RefundProposal, Difference, Names;
    SingleNames(v, o, PI006, Difference(v, o));
    SingleNames(v, o, PI007, Difference(v, o));
    SingleNames(v, o, PI007, o.amount);
    SingleNames(v, o, PI008, Difference(v, o));
  }

  lemma PaymentShape(v: View, o: Order, q: Proposal) returns (shape: Shape)
    requires q in PaymentEmissions(v, o)
    ensures ShapedBy(v, o, q, shape)
  {
    hide StageOf, Receipts, GroupIds, DuplicateProposal, MissingProposal, PairEmissions, Corrected, Names, Listing,
      MixedCurrencyProposal, RefundProposal, Difference;
    SingleNames(v, o, PI006, Difference(v, o));
    var receipts := Listing(Receipts(v, o), PaymentId);
    if q in PairEmissions(v, o, receipts) {
      var p := PairShape(v, o, receipts, q);
      ListingEmpty(Receipts(v, o), PaymentId);
      shape := Pair(p);
    } else if q == DuplicateProposal(v, o) {
      shape := Duplicate;
    } else {
      shape := Missing;
    }
  }

  lemma OrderShape(v: View, o: Order, q: Proposal) returns (shape: Shape)
    requires q in OrderEmissions(v, o)
    ensures !Held(v, o) && ShapedBy(v, o, q, shape)
  {
    hide Held, PaymentEmissions, SettledEmissions, ShapedBy;
    if q in PaymentEmissions(v, o) {
      shape := PaymentShape(v, o, q);
    } else {
      SettledShape(v, o, q);
      shape := Settled;
    }
  }

  datatype Origin = Conflict(o: Order) | Claim(id: string) | Report(o: Order) | Unmatched(p: Payment)

  ghost predicate ComesFrom(v: View, q: Proposal, origin: Origin) {
    match origin
    case Conflict(o) => Mismatched(v, o) && q == ConflictProposal(v, o)
    case Claim(id) => Contested(v, id) && q == ClaimProposal(v, id)
    case Report(o) => Examined(v, o) && q in OrderEmissions(v, o)
    case Unmatched(p) => Loose(v, p) && !OutsideCoverage(v, p) && q == UnmatchedProposal(v, p)
  }

  lemma {:induction false} ConflictOrigin(v: View, orders: seq<Order>, q: Proposal) returns (o: Order)
    requires q in ConflictEmissions(v, orders)
    ensures o in orders && ComesFrom(v, q, Conflict(o))
  {
    hide ConflictProposal, Mismatched;
    var init := orders[..|orders| - 1];
    if q in ConflictEmissions(v, init) {
      o := ConflictOrigin(v, init, q);
      assert o in init;
    } else {
      o := orders[|orders| - 1];
    }
  }

  lemma {:induction false} ClaimOrigin(v: View, ids: seq<string>, q: Proposal) returns (id: string)
    requires q in ClaimEmissions(v, ids)
    ensures id in ids && ComesFrom(v, q, Claim(id))
  {
    hide ClaimProposal, Contested;
    var init := ids[..|ids| - 1];
    if q in ClaimEmissions(v, init) {
      id := ClaimOrigin(v, init, q);
      assert id in init;
    } else {
      id := ids[|ids| - 1];
    }
  }

  lemma {:induction false} ReportOrigin(v: View, orders: seq<Order>, q: Proposal) returns (o: Order)
    requires q in ExaminedEmissions(v, orders)
    ensures o in orders && ComesFrom(v, q, Report(o))
  {
    hide OrderEmissions, Examined;
    var init := orders[..|orders| - 1];
    if q in ExaminedEmissions(v, init) {
      o := ReportOrigin(v, init, q);
      assert o in init;
    } else {
      o := orders[|orders| - 1];
    }
  }

  lemma {:induction false} UnmatchedOrigin(v: View, payments: seq<Payment>, q: Proposal) returns (p: Payment)
    requires q in UnclaimedEmissions(v, payments)
    ensures p in payments && ComesFrom(v, q, Unmatched(p))
  {
    hide Loose, OutsideCoverage, UnmatchedProposal;
    var init := payments[..|payments| - 1];
    if q in UnclaimedEmissions(v, init) {
      p := UnmatchedOrigin(v, init, q);
      assert p in init;
    } else {
      p := payments[|payments| - 1];
    }
  }

  lemma EmissionOrigin(v: View, q: Proposal) returns (origin: Origin)
    requires q in Emissions(v)
    ensures ComesFrom(v, q, origin)
  {
    hide ConflictEmissions, ClaimEmissions, ExaminedEmissions, UnclaimedEmissions, ComesFrom, Listing;
    if q in ConflictEmissions(v, Listing(v.orders, OrderId)) {
      var o := ConflictOrigin(v, Listing(v.orders, OrderId), q);
      origin := Conflict(o);
    } else if q in ClaimEmissions(v, Listing(Claimed(v), Self)) {
      var id := ClaimOrigin(v, Listing(Claimed(v), Self), q);
      origin := Claim(id);
    } else if q in ExaminedEmissions(v, Listing(v.orders, OrderId)) {
      var o := ReportOrigin(v, Listing(v.orders, OrderId), q);
      origin := Report(o);
    } else {
      var p := UnmatchedOrigin(v, Listing(v.payments, PaymentId), q);
      origin := Unmatched(p);
    }
  }

  // ----- proposals and blocked identities -----

  /** Everything a processed order adds to the blocked set is in its own group. */
  lemma BlockedForOrder(v: View, o: Order)
    requires Identified(v) && Examined(v, o) && !Held(v, o)
    ensures OrderTag(o.id) in Blocked(v) <==> StageOf(v, o) in {LateRefund, Excess, Inconsistent}
    ensures forall p :: p in Group(v, o) ==> PaymentTag(p.id) !in Blocked(v)
  {
    hide StageOf, BlockedByMatching, BlockedByOrders, BlockedLoose;
    OwnTagBlocked(v, o);
    forall p | p in Group(v, o) ensures PaymentTag(p.id) !in Blocked(v) { GroupUnblocked(v, o, p); }
  }

  lemma LooseAreUnclaimed(v: View, o: Order, p: Payment)
    requires Identified(v) && Examined(v, o) && p in Group(v, o)
    ensures PaymentTag(p.id) !in BlockedLoose(v, v.payments)
  {
    assert p.id in Claimed(v);
    forall q | q in v.payments ensures PaymentTag(p.id) !in LooseBlocks(v, q) { TagsApart(p.id, q.id); }
  }

  lemma OwnTagBlocked(v: View, o: Order)
    requires Identified(v) && Examined(v, o) && !Held(v, o)
    ensures OrderTag(o.id) in Blocked(v) <==> StageOf(v, o) in {LateRefund, Excess, Inconsistent}
  {
    hide StageOf, BlockedByMatching, GroupIds, OutsideCoverage;
    assert o in v.orders;
    GrowthIrrelevant(v, v.orders - {o}, o);
    assert v.orders == (v.orders - {o}) + {o};
    forall p | p in v.payments ensures OrderTag(o.id) !in LooseBlocks(v, p) { TagsApart(o.id, p.id); }
    assert OrderTag(o.id) in BlockedByOrders(v, v.orders) <==> OrderTag(o.id) in OrderBlocks(v, o);
  }

  lemma GroupUnblocked(v: View, o: Order, p: Payment)
    requires Identified(v) && Examined(v, o) && !Held(v, o) && p in Group(v, o)
    ensures PaymentTag(p.id) !in Blocked(v)
  {
    LooseAreUnclaimed(v, o, p);
    assert PaymentTag(p.id) in GroupIds(v, o);
    GrowthIrrelevant(v, v.orders - {o}, o);
    NotOwnBlock(v, o, p);
    hide StageOf, BlockedByMatching, Matched, GroupIds, LooseBlocks, OrderBlocks, Examined;
    forall d | d in v.orders && Examined(v, d) ensures PaymentTag(p.id) !in OrderBlocks(v, d) {
      if d != o {
        assert d in v.orders - {o};
        assert PaymentTag(p.id) !in BlockedByOrders(v, v.orders - {o});
      }
    }
  }

  lemma NotOwnBlock(v: View, o: Order, p: Payment)
    requires !Held(v, o) && p in Group(v, o)
    ensures PaymentTag(p.id) !in OrderBlocks(v, o)
    ensures PaymentTag(p.id) !in BlockedByMatching(v)
  {
    TagsApart(o.id, p.id);
    assert PaymentTag(p.id) in GroupIds(v, o);
  }

  lemma UnmatchedUnblocked(v: View, p: Payment)
    requires Identified(v) && Loose(v, p) && !OutsideCoverage(v, p)
    ensures PaymentTag(p.id) !in Blocked(v)
  {
    UnclaimedUntouched(v, v.payments - {p}, p);
    hide BlockedByMatching, BlockedByOrders, Claimed, OutsideCoverage;
    forall q | q in v.payments ensures PaymentTag(p.id) !in LooseBlocks(v, q) {
      TagsApart(p.id, q.id);
      if q != p { assert PaymentId(p) != PaymentId(q); }
    }
  }

  const FINANCIAL := {PI001, PI002, PI003, PI004, PI005, PI006, PI007, PI008}

  /** Identity `i` is an order whose refunds stopped the evaluation after its payments were reported. */
  ghost predicate StoppedAfterReport(v: View, q: Proposal, o: Order, i: string) {
    && Examined(v, o) && q in OrderEmissions(v, o) && i == OrderTag(o.id)
    && StageOf(v, o) in {LateRefund, Excess, Inconsistent}
  }

  /**
   No financial proposal names a blocked payment, and four of the rules name no blocked identity at all: what can be
   blocked afterwards is exactly the order itself, when its refunds stop the evaluation.
   */
  lemma NoBlockedPaymentReported(v: View, q: Proposal, i: string)
    requires Identified(v) && q in Emissions(v) && q.rule in FINANCIAL && i in Names(q) && i in Blocked(v)
    ensures q.rule in {PI001, PI003, PI004, PI005}
    ensures exists o :: StoppedAfterReport(v, q, o, i)
  {
    hide Blocked, Emissions, Examined, OrderEmissions, StoppedAfterReport, Loose, OutsideCoverage, Contested,
      Mismatched, ConflictProposal, ClaimProposal, UnmatchedProposal, Identified;
    var origin := EmissionOrigin(v, q);
    match origin
    case Conflict(o) => MatchingRule(v, o);
    case Claim(id) => MatchingRuleOfClaim(v, id);
    case Unmatched(p) => UnmatchedNames(v, p); UnmatchedUnblocked(v, p);
    case Report(o) => ReportBlocked(v, o, q, i);
  }

  /** Conversely, an examined order's reports always name it, so they name a blocked order when it is stopped. */
  lemma StoppedOrderReported(v: View, o: Order, q: Proposal)
    requires Identified(v) && Examined(v, o) && q in OrderEmissions(v, o)
    requires StageOf(v, o) in {LateRefund, Excess, Inconsistent}
    ensures OrderTag(o.id) in Names(q) && OrderTag(o.id) in Blocked(v)
  {
    hide Examined, OrderEmissions, Blocked, Group, Receipts, GroupIds, Identified, Make;
    var shape := OrderShape(v, o, q);
    BlockedForOrder(v, o);
    OwnTagInGroup(v, o);
  }

  lemma OwnTagInGroup(v: View, o: Order)
    ensures OrderTag(o.id) in GroupIds(v, o)
  {
  }

  lemma MatchingRule(v: View, o: Order)
    ensures ConflictProposal(v, o).rule == PI010 && Names(ConflictProposal(v, o)) == ConflictIds(v, o)
  {
  }

  lemma MatchingRuleOfClaim(v: View, id: string)
    ensures ClaimProposal(v, id).rule == PI010 && Names(ClaimProposal(v, id)) == ClaimIds(v, id)
  {
  }

  lemma ReportBlocked(v: View, o: Order, q: Proposal, i: string)
    requires Identified(v) && Examined(v, o) && q in OrderEmissions(v, o) && i in Names(q) && i in Blocked(v)
    ensures q.rule in {PI001, PI003, PI004, PI005} && StoppedAfterReport(v, q, o, i)
  {
    hide StageOf, Examined, OrderEmissions, Blocked, Group, Receipts, GroupIds, Identified, Make;
    var shape := OrderShape(v, o, q);
    BlockedForOrder(v, o);
    ReceiptsInGroup(v, o);
    GroupMembers(v, o, i);
    assert i == OrderTag(o.id);
  }

  lemma GroupMembers(v: View, o: Order, i: string)
    ensures i in GroupIds(v, o) ==> i == OrderTag(o.id) || exists p :: p in Group(v, o) && i == PaymentTag(p.id)
  {
  }

  lemma ReceiptsInGroup(v: View, o: Order)
    ensures Receipts(v, o) <= Group(v, o)
  {
  }

  lemma UnmatchedNames(v: View, p: Payment)
    ensures Names(UnmatchedProposal(v, p)) == {PaymentTag(p.id)}
    ensures UnmatchedProposal(v, p).rule == PI002
  {
  }

  /** The same, on what an evaluation returns. */
  lemma ReportedPaymentsUnblocked(s: Snapshot, codec: Codec, e: Evaluation, q: Proposal, i: string)
    requires Answer(s, codec) == Ok(e) && q in e.proposals && q.rule in FINANCIAL
    requires i in q.identities && i in e.blocked
    ensures q.rule in {PI001, PI003, PI004, PI005}
    ensures exists o :: o in s.orders && StoppedAfterReport(ViewOf(s, codec), q, o, i)
  {
    hide InputError, Identified, Emissions, Stale, Overflows, Blocked, Warnings, Digest, SortBy, StoppedAfterReport,
      Make;
    var v := ViewOf(s, codec);
    ChecksIdentify(s, codec);
    SortBySorts(Emissions(v), ProposalKey);
    SameElements(Emissions(v), SortBy(Emissions(v), ProposalKey));
    assert forall x :: x in Emissions(v) <==> x in ToSet(Emissions(v));
    assert q in ToSet(e.proposals) && i in Names(q);
    ListingEmpty(Blocked(v), Self);
    NoBlockedPaymentReported(v, q, i);
    StoppedIsOrder(s, codec, q, i);
  }

  lemma StoppedIsOrder(s: Snapshot, codec: Codec, q: Proposal, i: string)
    requires exists o :: StoppedAfterReport(ViewOf(s, codec), q, o, i)
    ensures exists o :: o in s.orders && StoppedAfterReport(ViewOf(s, codec), q, o, i)
  {
    hide StageOf, OrderEmissions, BlockedByMatching;
    var o :| StoppedAfterReport(ViewOf(s, codec), q, o, i);
    assert o in ViewOf(s, codec).orders;
  }

  /** With stale coverage only PI-009 is evaluated; without a verified link, only PI-009 and PI-010. */
  lemma EvaluatedRulesGate(s: Snapshot, codec: Codec, e: Evaluation, rule: Rule)
    requires Answer(s, codec) == Ok(e) && rule in e.evaluatedRules
    ensures Stale(ViewOf(s, codec)) != {} ==> rule == PI009
    ensures !s.linkVerified || s.linkConflict ==> rule in {PI009, PI010}
    ensures rule !in s.policy.disabledRules
  {
    hide InputError, Identified, Emissions, Stale, Overflows, Blocked, Warnings, Digest, SortBy, Make, EnabledRules,
      When, Listing;
    EnabledNotDisabled(s.policy, rule);
  }

  lemma EnabledNotDisabled(policy: Policy, rule: Rule)
    ensures rule in EnabledRules(policy) ==> rule !in policy.disabledRules
  {
  }
}
