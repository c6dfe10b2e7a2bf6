/** No two proposals of one evaluation share a rule and identities, so their keys differ. */
module EngineKeys {
  import opened Wrappers
  import opened Ordering
  import opened Domain
  import opened EngineSpec
  import opened EngineLemmas
  import opened EngineProperties

  /** What a finding is about. */
  ghost function Subject(q: Proposal): (Rule, set<string>) { (q.rule, Names(q)) }

  ghost predicate SubjectsDiffer(xs: seq<Proposal>) {
    forall i, j :: 0 <= i < j < |xs| ==> Subject(xs[i]) != Subject(xs[j])
  }

  ghost predicate Apart(xs: seq<Proposal>, ys: seq<Proposal>) {
    forall x, y :: x in xs && y in ys ==> Subject(x) != Subject(y)
  }

  lemma ConcatDiffers(xs: seq<Proposal>, ys: seq<Proposal>)
    requires SubjectsDiffer(xs) && SubjectsDiffer(ys) && Apart(xs, ys)
    ensures SubjectsDiffer(xs + ys)
  {
    hide Subject;
    var zs := xs + ys;
    forall i, j | 0 <= i < j < |zs| ensures Subject(zs[i]) != Subject(zs[j]) {
      if i < |xs| && j >= |xs| {
        assert zs[i] in xs && zs[j] in ys;
      }
    }
  }

  // ----- one order -----

  lemma {:induction false} PairsDiffer(v: View, o: Order, receipts: seq<Payment>)
    requires forall i, j :: 0 <= i < j < |receipts| ==> receipts[i].id != receipts[j].id
    ensures SubjectsDiffer(PairEmissions(v, o, receipts))
  {
    hide PairProposal, Names;
    if receipts != [] {
      var init, last := receipts[..|receipts| - 1], receipts[|receipts| - 1];
      PairsDiffer(v, o, init);
      var first := When(v, o.status in UNPAID, PairProposal(v, o, last, PI001));
      var second := When(v, last.received != o.amount, PairProposal(v, o, last, PI005));
      PairNames(v, o, last, PI001);
      PairNames(v, o, last, PI005);
      forall q | q in PairEmissions(v, o, init)
        ensures Names(q) != {OrderTag(o.id), PaymentTag(last.id)}
      {
        var p := PairShape(v, o, init, q);
        var k :| 0 <= k < |init| && init[k] == p;
        assert receipts[k].id != receipts[|receipts| - 1].id;
        PairTagsDiffer(o, p, last);
      }
      ConcatDiffers(PairEmissions(v, o, init), first);
      ConcatDiffers(PairEmissions(v, o, init) + first, second);
    }
  }

  lemma PairTagsDiffer(o: Order, a: Payment, b: Payment)
    requires a.id != b.id
    ensures {OrderTag(o.id), PaymentTag(a.id)} != {OrderTag(o.id), PaymentTag(b.id)}
  {
    TagsApart(a.id, b.id);
    TagsApart(o.id, a.id);
    assert PaymentTag(a.id) !in {OrderTag(o.id), PaymentTag(b.id)};
  }

  lemma ListedIdsDiffer(v: View, o: Order)
    requires Identified(v)
    ensures var xs := Listing(Receipts(v, o), PaymentId);
      forall i, j :: 0 <= i < j < |xs| ==> xs[i].id != xs[j].id
  {
    hide Listing;
    var xs := Listing(Receipts(v, o), PaymentId);
    ListingEmpty(Receipts(v, o), PaymentId);
    forall i, j | 0 <= i < j < |xs| ensures xs[i].id != xs[j].id {
      assert xs[i] in xs && xs[j] in xs;
      assert PaymentId(xs[i]) == xs[i].id && PaymentId(xs[j]) == xs[j].id;
    }
  }

  lemma OrderDiffers(v: View, o: Order)
    requires Identified(v)
    ensures SubjectsDiffer(OrderEmissions(v, o))
  {
    hide StageOf, Receipts, GroupIds, DuplicateProposal, MissingProposal, MixedCurrencyProposal, RefundProposal,
      PairEmissions, Corrected, Difference, Listing, Identified;
    var receipts := Listing(Receipts(v, o), PaymentId);
    var pairs := PairEmissions(v, o, receipts);
    ListedIdsDiffer(v, o);
    PairsDiffer(v, o, receipts);
    SingleNames(v, o, PI006, Difference(v, o));
    SingleNames(v, o, PI007, Difference(v, o));
    SingleNames(v, o, PI007, o.amount);
    SingleNames(v, o, PI008, Difference(v, o));
    forall q | q in pairs ensures q.rule in {PI001, PI005} { var p := PairShape(v, o, receipts, q); }
    var duplicate := When(v, |Receipts(v, o)| > 1 && !Corrected(v, o), DuplicateProposal(v, o));
    var missing := When(v, Receipts(v, o) == {} && o.status in PAID, MissingProposal(v, o));
    ConcatDiffers(duplicate, missing);
    ConcatDiffers(duplicate + missing, pairs);
    if !Held(v, o) {
      SettledAlone(v, o);
      ConcatDiffers(PaymentEmissions(v, o), SettledEmissions(v, o));
    }
  }

  lemma SettledAlone(v: View, o: Order)
    ensures |SettledEmissions(v, o)| <= 1
    ensures forall q :: q in SettledEmissions(v, o) ==> q.rule in SETTLED
  {
    hide StageOf, Difference, StripeRefunds, BaseFacts;
  }

  // ----- each pass -----

  lemma {:induction false} ConflictsDiffer(v: View, orders: seq<Order>)
    requires Identified(v) && Distinct(orders) && forall o :: o in orders ==> o in v.orders
    ensures SubjectsDiffer(ConflictEmissions(v, orders))
  {
    hide ConflictProposal, Mismatched, ConflictIds, Identified;
    if orders != [] {
      var init, last := orders[..|orders| - 1], orders[|orders| - 1];
      ConflictsDiffer(v, init);
      MatchingRule(v, last);
      forall q | q in ConflictEmissions(v, init) ensures Names(q) != ConflictIds(v, last) {
        var o := ConflictOrigin(v, init, q);
        MatchingRule(v, o);
        assert o != last && o in orders;
        ConflictTagsDiffer(v, o, last);
      }
      ConcatDiffers(ConflictEmissions(v, init), When(v, Mismatched(v, last), ConflictProposal(v, last)));
    }
  }

  lemma ConflictTagsDiffer(v: View, a: Order, b: Order)
    requires Identified(v) && a in v.orders && b in v.orders && a != b
    ensures ConflictIds(v, a) != ConflictIds(v, b)
  {
    assert OrderId(a) != OrderId(b);
    TagsApart(a.id, b.id);
    forall id ensures OrderTag(a.id) != PaymentTag(id) { TagsApart(a.id, id); }
    assert OrderTag(a.id) in ConflictIds(v, a) && OrderTag(a.id) !in ConflictIds(v, b);
  }

  lemma {:induction false} ClaimsDiffer(v: View, ids: seq<string>)
    requires Distinct(ids)
    ensures SubjectsDiffer(ClaimEmissions(v, ids))
  {
    hide ClaimProposal, Contested, ClaimIds;
    if ids != [] {
      var init, last := ids[..|ids| - 1], ids[|ids| - 1];
      ClaimsDiffer(v, init);
      MatchingRuleOfClaim(v, last);
      forall q | q in ClaimEmissions(v, init) ensures Names(q) != ClaimIds(v, last) {
        var id := ClaimOrigin(v, init, q);
        MatchingRuleOfClaim(v, id);
        ClaimTagsDiffer(v, id, last);
      }
      ConcatDiffers(ClaimEmissions(v, init), When(v, Contested(v, last), ClaimProposal(v, last)));
    }
  }

  lemma ClaimTagsDiffer(v: View, a: string, b: string)
    requires a != b
    ensures ClaimIds(v, a) != ClaimIds(v, b)
  {
    TagsApart(a, b);
    forall id ensures PaymentTag(a) != OrderTag(id) { TagsApart(id, a); }
    assert PaymentTag(a) in ClaimIds(v, a) && PaymentTag(a) !in ClaimIds(v, b);
  }

  /** A conflict names one order; a contested claim names at least two. */
  lemma ConflictIsNoClaim(v: View, o: Order, id: string)
    requires Contested(v, id)
    ensures ConflictIds(v, o) != ClaimIds(v, id)
  {
    hide Claimants, Resolved;
    var c := AnotherMember(Claimants(v, id), o.id);
    TagsApart(c, o.id);
    forall p ensures OrderTag(c) != PaymentTag(p) { TagsApart(c, p); }
    assert OrderTag(c) in ClaimIds(v, id) && OrderTag(c) !in ConflictIds(v, o);
  }

  lemma ReportNamesOrder(v: View, o: Order, q: Proposal)
    requires q in OrderEmissions(v, o)
    ensures OrderTag(o.id) in Names(q) && q.rule in FINANCIAL && q.rule != PI002
    ensures Names(q) <= GroupIds(v, o)
  {
    hide StageOf, GroupIds, OrderEmissions, Group;
    var shape := OrderShape(v, o, q);
    OwnTagInGroup(v, o);
    ReceiptsInGroup(v, o);
    TagsInGroup(v, o);
  }

  lemma TagsInGroup(v: View, o: Order)
    ensures forall p :: p in Group(v, o) ==> PaymentTag(p.id) in GroupIds(v, o)
  {
  }

  lemma {:induction false} ReportsDiffer(v: View, orders: seq<Order>)
    requires Identified(v) && Distinct(orders)
    ensures SubjectsDiffer(ExaminedEmissions(v, orders))
  {
    hide OrderEmissions, Examined, GroupIds, Identified;
    if orders != [] {
      var init, last := orders[..|orders| - 1], orders[|orders| - 1];
      ReportsDiffer(v, init);
      OrderDiffers(v, last);
      var tail := if Examined(v, last) then OrderEmissions(v, last) else [];
      forall x, y | x in ExaminedEmissions(v, init) && y in tail ensures Subject(x) != Subject(y) {
        var o := ReportOrigin(v, init, x);
        ReportNamesOrder(v, o, x);
        ReportNamesOrder(v, last, y);
        ExaminedDisjoint(v, o, last);
        OwnTagInGroup(v, o);
        assert OrderTag(o.id) in Names(x) && OrderTag(o.id) !in GroupIds(v, last);
      }
      ConcatDiffers(ExaminedEmissions(v, init), tail);
    }
  }

  lemma {:induction false} UnmatchedDiffer(v: View, payments: seq<Payment>)
    requires Identified(v) && Distinct(payments) && forall p :: p in payments ==> p in v.payments
    ensures SubjectsDiffer(UnclaimedEmissions(v, payments))
  {
    hide Loose, OutsideCoverage, UnmatchedProposal, Identified;
    if payments != [] {
      var init, last := payments[..|payments| - 1], payments[|payments| - 1];
      UnmatchedDiffer(v, init);
      UnmatchedNames(v, last);
      forall q | q in UnclaimedEmissions(v, init) ensures Names(q) != {PaymentTag(last.id)} {
        var p := UnmatchedOrigin(v, init, q);
        UnmatchedNames(v, p);
        assert p != last && p in payments;
        PaymentTagsDiffer(v, p, last);
      }
      ConcatDiffers(UnclaimedEmissions(v, init), LooseEmissions(v, last));
    }
  }

  lemma PaymentTagsDiffer(v: View, a: Payment, b: Payment)
    requires Identified(v) && a in v.payments && b in v.payments && a != b
    ensures {PaymentTag(a.id)} != {PaymentTag(b.id)}
  {
    assert PaymentId(a) != PaymentId(b);
    TagsApart(a.id, b.id);
    assert PaymentTag(a.id) in {PaymentTag(a.id)} && PaymentTag(a.id) !in {PaymentTag(b.id)};
  }

  // ----- the whole evaluation -----

  lemma EmissionsDiffer(v: View)
    requires Identified(v)
    ensures SubjectsDiffer(Emissions(v))
  {
    hide ConflictEmissions, ClaimEmissions, ExaminedEmissions, UnclaimedEmissions, Listing, Identified, Claimed,
      ConflictProposal, ClaimProposal, UnmatchedProposal, OrderEmissions, Examined, Loose, OutsideCoverage, Mismatched,
      Contested;
    var orders, ids, payments := Listing(v.orders, OrderId), Listing(Claimed(v), Self), Listing(v.payments, PaymentId);
    var conflicts, claims := ConflictEmissions(v, orders), ClaimEmissions(v, ids);
    var reports, unmatched := ExaminedEmissions(v, orders), UnclaimedEmissions(v, payments);
    ListingEmpty(v.orders, OrderId);
    ListingEmpty(v.payments, PaymentId);
    ConflictsDiffer(v, orders);
    ClaimsDiffer(v, ids);
    ReportsDiffer(v, orders);
    UnmatchedDiffer(v, payments);
    forall q | q in conflicts ensures q.rule == PI010 { var o := ConflictOrigin(v, orders, q); MatchingRule(v, o); }
    forall q | q in claims ensures q.rule == PI010 { var id := ClaimOrigin(v, ids, q); MatchingRuleOfClaim(v, id); }
    forall q | q in reports ensures q.rule in FINANCIAL && q.rule != PI002 {
      var o := ReportOrigin(v, orders, q);
      ReportNamesOrder(v, o, q);
    }
    forall q | q in unmatched ensures q.rule == PI002 {
      var p := UnmatchedOrigin(v, payments, q);
      UnmatchedNames(v, p);
    }
    forall x, y | x in conflicts && y in claims ensures Subject(x) != Subject(y) {
      var o := ConflictOrigin(v, orders, x);
      var id := ClaimOrigin(v, ids, y);
      MatchingRule(v, o);
      MatchingRuleOfClaim(v, id);
      ConflictIsNoClaim(v, o, id);
    }
    ConcatDiffers(conflicts, claims);
    ConcatDiffers(conflicts + claims, reports);
    ConcatDiffers(conflicts + claims + reports, unmatched);
  }

  lemma SortedDiffer(xs: seq<Proposal>)
    requires SubjectsDiffer(xs)
    ensures SubjectsDiffer(SortBy(xs, ProposalKey))
  {
    hide Subject, SortBy;
    var ys := SortBy(xs, ProposalKey);
    SortByIsListing(xs, ProposalKey);
    assert forall x :: x in xs <==> x in ToSet(xs);
    assert forall y :: y in ys <==> y in ToSet(ys);
    forall i, j | 0 <= i < j < |ys| ensures Subject(ys[i]) != Subject(ys[j]) {
      assert ys[i] in xs && ys[j] in xs;
      var a :| 0 <= a < |xs| && xs[a] == ys[i];
      var b :| 0 <= b < |xs| && xs[b] == ys[j];
    }
  }

  /**
   A proposal's key is the hash of its rule and identities, which are sorted and distinct; refund and coverage problems
   are high, all others critical; and it is ready from the time it is eligible.
   */
  ghost predicate Stamped(v: View, q: Proposal) {
    && q.key == v.codec.key(KeyMaterial(v.base.organizationId, v.base.storeId, v.base.mode, q.rule, q.identities))
    && Sorted(q.identities, Self) && Distinct(q.identities)
    && q.severity == (if q.rule == PI006 || q.rule == PI007 || q.rule == PI008 || q.rule == PI009 then "high"
                      else "critical")
    && (q.ready <==> q.eligibleAt <= v.base.now)
    && q.evidence.policyVersion == v.base.policy.version
    && ToSet(q.evidence.coverage) == v.coverage
  }

  lemma MakeStamped(v: View, rule: Rule, ids: set<string>, risk: Option<Money.Money>, confidence: nat, eligible: Time,
      facts: Facts)
    ensures Stamped(v, Make(v, rule, ids, risk, confidence, eligible, facts))
  {
  }

  lemma AllStamped(v: View, q: Proposal)
    requires q in Emissions(v)
    ensures Stamped(v, q)
  {
    hide Make, Emissions, Listing, Stamped;
    forall rule, ids, risk, confidence, eligible, facts
      ensures Stamped(v, Make(v, rule, ids, risk, confidence, eligible, facts))
    {
      MakeStamped(v, rule, ids, risk, confidence, eligible, facts);
    }
    var origin := EmissionOrigin(v, q);
    match origin
    case Report(o) => ReportStamped(v, o, q);
    case _ =>
  }

  lemma {:induction false} PairsStamped(v: View, o: Order, receipts: seq<Payment>, q: Proposal)
    requires q in PairEmissions(v, o, receipts)
    ensures Stamped(v, q)
  {
    hide Make, Stamped;
    forall rule, ids, risk, confidence, eligible, facts
      ensures Stamped(v, Make(v, rule, ids, risk, confidence, eligible, facts))
    {
      MakeStamped(v, rule, ids, risk, confidence, eligible, facts);
    }
    var init := receipts[..|receipts| - 1];
    if q in PairEmissions(v, o, init) {
      PairsStamped(v, o, init, q);
    }
  }

  lemma SingleStamped(v: View, o: Order, rule: Rule, risk: Money.Money)
    ensures Stamped(v, DuplicateProposal(v, o)) && Stamped(v, MissingProposal(v, o))
    ensures Stamped(v, MixedCurrencyProposal(v, o)) && Stamped(v, RefundProposal(v, o, rule, risk))
  {
  }

  lemma ReportStamped(v: View, o: Order, q: Proposal)
    requires q in OrderEmissions(v, o)
    ensures Stamped(v, q)
  {
    hide StageOf, Receipts, GroupIds, DuplicateProposal, MissingProposal, MixedCurrencyProposal, RefundProposal,
      PairEmissions, Corrected, Difference, Listing, Stamped;
    SingleStamped(v, o, PI006, Difference(v, o));
    SingleStamped(v, o, PI007, Difference(v, o));
    SingleStamped(v, o, PI007, o.amount);
    SingleStamped(v, o, PI008, Difference(v, o));
    if q in PairEmissions(v, o, Listing(Receipts(v, o), PaymentId)) {
      PairsStamped(v, o, Listing(Receipts(v, o), PaymentId), q);
    }
  }

  /** An evaluation of more than one proposal is that of the four passes. */
  lemma ReportedAreEmissions(v: View, e: Evaluation)
    requires Expected(v) == Ok(e) && |e.proposals| > 1
    ensures e.proposals == SortBy(Emissions(v), ProposalKey)
  {
    hide Emissions, Stale, Overflows, Blocked, Warnings, Digest, Make, SortBy, Listing, EnabledRules, Filter;
  }

  /** The keys of the reported proposals are pairwise distinct, so the final sort has no ties. */
  lemma FindingKeysDistinct(s: Snapshot, codec: Codec, e: Evaluation)
    requires codec.Faithful() && Answer(s, codec) == Ok(e)
    ensures SubjectsDiffer(e.proposals)
    ensures forall i, j :: 0 <= i < j < |e.proposals| ==> e.proposals[i].key != e.proposals[j].key
  {
    hide InputError, ViewOf, Identified, Emissions, Expected, Subject, SortBy;
    var v := ViewOf(s, codec);
    if |e.proposals| > 1 {
      ChecksIdentify(s, codec);
      ReportedAreEmissions(v, e);
      EmissionsDiffer(v);
      SortedDiffer(Emissions(v));
      CodecKept(s, codec);
      KeysDiffer(v, Emissions(v));
    }
  }

  lemma CodecKept(s: Snapshot, codec: Codec)
    ensures ViewOf(s, codec).codec == codec
  {
  }

  lemma KeysDiffer(v: View, xs: seq<Proposal>)
    requires v.codec.Faithful() && xs == Emissions(v) && SubjectsDiffer(SortBy(xs, ProposalKey))
    ensures var ys := SortBy(xs, ProposalKey); forall i, j :: 0 <= i < j < |ys| ==> ys[i].key != ys[j].key
  {
    hide Emissions, SortBy;
    var ys := SortBy(xs, ProposalKey);
    SortBySorts(xs, ProposalKey);
    SameElements(xs, ys);
    assert forall x :: x in xs <==> x in ToSet(xs);
    assert forall y :: y in ys <==> y in ToSet(ys);
    forall i, j | 0 <= i < j < |ys| ensures ys[i].key != ys[j].key {
      assert ys[i] in ys && ys[j] in ys;
      AllStamped(v, ys[i]);
      AllStamped(v, ys[j]);
      assert Subject(ys[i]) != Subject(ys[j]);
    }
  }
}
