/**
 What a report says about the money. The conditions here are said of payments, orders and refunds one by one, in the
 words of the rules; the lemmas show that an evaluation reports exactly what they call for.
 */
module EngineMeaning {
  import opened Domain
  import opened EngineSpec
  import opened EngineLemmas
  import opened EngineProperties
  import opened EngineConservation

  // ----- what is linked -----

  predicate Mentions(o: Order, r: string) {
    r != "" && (r == o.transactionId || r == o.paymentIntentId || r == o.chargeId || r == o.sessionId)
  }

  predicate NameOf(p: Payment, r: string) { r == p.id || r in p.chargeIds || r in p.sessionIds }

  ghost predicate Points(o: Order, p: Payment) { exists r :: Mentions(o, r) && NameOf(p, r) }

  predicate Hinted(v: View, o: Order, p: Payment) {
    p.orderHint != "" && p.orderHint == o.id && (p.storeHint == "" || p.storeHint == v.base.storeId)
  }

  predicate ByStripe(o: Order) {
    o.paymentMethod == "stripe" || (|o.paymentMethod| >= 7 && o.paymentMethod[..7] == "stripe_")
  }

  predicate Compatible(v: View, o: Order, p: Payment) {
    (p.storeHint == "" || p.storeHint == v.base.storeId) && (p.orderHint == "" || p.orderHint == o.id)
  }

  /** Every identifier of the order leads to the same payment, which hints at no other order. */
  ghost predicate Clear(v: View, o: Order) {
    && (forall r :: Mentions(o, r) ==> exists p :: p in v.payments && NameOf(p, r))
    && (forall p, q :: p in v.payments && q in v.payments && Points(o, p) && Points(o, q) ==> p == q)
    && (o.id in v.base.ambiguousOrderHints ==> forall p :: p in v.payments ==> !Hinted(v, o, p))
    && (forall p :: p in v.payments && Points(o, p) ==> Compatible(v, o, p))
  }

  ghost predicate Linked(v: View, o: Order) { o in v.orders && ByStripe(o) && Clear(v, o) }

  ghost predicate Garbled(v: View, o: Order) { o in v.orders && ByStripe(o) && !Clear(v, o) }

  ghost predicate Belongs(v: View, o: Order, p: Payment) { p in v.payments && (Points(o, p) || Hinted(v, o, p)) }

  /** None of the order's payments is another order's as well, nor mentioned by an order that is not clear. */
  ghost predicate Untangled(v: View, o: Order) {
    forall p :: Belongs(v, o, p) ==>
      && (forall d :: Linked(v, d) && Belongs(v, d, p) ==> d == o)
      && (forall d :: Garbled(v, d) ==> !Points(d, p))
  }

  predicate IsRequired(source: string) {
    source == "stripe_payments" || source == "stripe_refunds" || source == "woo_orders" || source == "woo_refunds"
  }

  /** Every required source has been covered up to this time. */
  ghost predicate InReach(v: View, t: Time) {
    forall c :: c in v.coverage && IsRequired(c.source) ==> t <= c.coveredThrough
  }

  /** The order and its payments are linked, recent and covered: its money can be judged. */
  ghost predicate Ripe(v: View, o: Order) {
    && Linked(v, o) && Untangled(v, o) && o.createdAt >= v.base.windowFrom && InReach(v, o.changedAt)
    && forall p :: Belongs(v, o, p) ==> InReach(v, p.changedAt)
  }

  lemma PointsIs(v: View, o: Order, p: Payment)
    requires Identified(v) && p in v.payments
    ensures p.id in Resolved(v, o) <==> Points(o, p)
  {
    if Points(o, p) {
      var r :| Mentions(o, r) && NameOf(p, r);
      assert r in References(o) && Answers(p, r);
    }
    if p.id in Resolved(v, o) {
      var q, r :| q in v.payments && r in References(o) && Answers(q, r) && q.id == p.id;
      assert PaymentId(q) == PaymentId(p);
      assert Mentions(o, r) && NameOf(p, r);
    }
  }

  lemma BelongsIs(v: View, o: Order, p: Payment)
    requires Identified(v)
    ensures p in Group(v, o) <==> Belongs(v, o, p)
  {
    hide Points, Resolved;
    if p in v.payments { PointsIs(v, o, p); }
  }

  lemma ReferencesAre(v: View, o: Order)
    ensures forall r :: r in References(o) <==> Mentions(o, r)
    ensures Unresolved(v, o) == {} <==> forall r :: Mentions(o, r) ==> exists p :: p in v.payments && NameOf(p, r)
  {
    forall r ensures r in References(o) <==> Mentions(o, r) {}
    forall r ensures r in Unresolved(v, o) <==> Mentions(o, r) && !exists p :: p in v.payments && NameOf(p, r) {
      assert forall p :: Answers(p, r) <==> NameOf(p, r);
    }
  }

  lemma OneTarget(v: View, o: Order)
    requires Identified(v)
    ensures |Resolved(v, o)| > 1 <==>
              exists p, q :: p in v.payments && q in v.payments && Points(o, p) && Points(o, q) && p != q
  {
    forall p | p in v.payments ensures p.id in Resolved(v, o) <==> Points(o, p) { PointsIs(v, o, p); }
    hide Points;
    if |Resolved(v, o)| > 1 {
      var a := AnotherMember(Resolved(v, o), "");
      var b := AnotherMember(Resolved(v, o), a);
      var p, q :| p in v.payments && q in v.payments && p.id == a && q.id == b;
    }
    if p, q :| p in v.payments && q in v.payments && Points(o, p) && Points(o, q) && p != q {
      assert PaymentId(p) != PaymentId(q);
      TwoMembers(Resolved(v, o), p.id, q.id);
    }
  }

  lemma ClearIs(v: View, o: Order)
    requires Identified(v)
    ensures Clear(v, o) <==> !Conflicting(v, o)
  {
    ReferencesAre(v, o);
    OneTarget(v, o);
    forall p | p in v.payments ensures p.id in Resolved(v, o) <==> Points(o, p) { PointsIs(v, o, p); }
    hide Points, Resolved, Unresolved, Mentions, NameOf;
    assert forall p :: p in v.payments ==> (p in Hinting(v, o) <==> Hinted(v, o, p));
  }

  lemma LinkedIs(v: View, o: Order)
    requires Identified(v)
    ensures Linked(v, o) <==> Matched(v, o)
    ensures Garbled(v, o) <==> Mismatched(v, o)
  {
    ClearIs(v, o);
    hide Clear, Conflicting;
  }

  /** No payment of the order is contested, and none was found by an order that is not clear. */
  lemma UntangledIs(v: View, o: Order)
    requires Identified(v) && Linked(v, o)
    ensures Untangled(v, o) <==> GroupIds(v, o) * BlockedByMatching(v) == {}
  {
    hide Linked, Garbled, Belongs, Group, Matched, Mismatched, ConflictIds, ClaimIds, Contested, Claimed, Points;
    forall d { LinkedIs(v, d); }
    forall d, p { BelongsIs(v, d, p); }
    if !Untangled(v, o) {
      var p :| Belongs(v, o, p) && !((forall d :: Linked(v, d) && Belongs(v, d, p) ==> d == o)
                                     && (forall d :: Garbled(v, d) ==> !Points(d, p)));
      TangledPayment(v, o, p);
      assert PaymentTag(p.id) in GroupIds(v, o) * BlockedByMatching(v);
    }
    if GroupIds(v, o) * BlockedByMatching(v) != {} {
      var i :| i in GroupIds(v, o) * BlockedByMatching(v);
      TangleFound(v, o, i);
    }
  }

  lemma TangledPayment(v: View, o: Order, p: Payment)
    requires Identified(v) && Linked(v, o) && Belongs(v, o, p)
    requires (exists d :: Linked(v, d) && Belongs(v, d, p) && d != o) || (exists d :: Garbled(v, d) && Points(d, p))
    ensures PaymentTag(p.id) in BlockedByMatching(v)
  {
    hide Linked, Garbled, Belongs, Group, Matched, Mismatched, Points, Resolved;
    LinkedIs(v, o);
    BelongsIs(v, o, p);
    if d :| Linked(v, d) && Belongs(v, d, p) && d != o {
      LinkedIs(v, d);
      BelongsIs(v, d, p);
      SharedIsBlocked(v, o, d, p);
    } else {
      var d :| Garbled(v, d) && Points(d, p);
      LinkedIs(v, d);
      PointedIsBlocked(v, d, p);
    }
  }

  lemma PointedIsBlocked(v: View, d: Order, p: Payment)
    requires Identified(v) && Mismatched(v, d) && Points(d, p)
    requires exists o :: Belongs(v, o, p)
    ensures PaymentTag(p.id) in BlockedByMatching(v)
  {
    hide Points, Resolved, Conflicting, Contested;
    PointsIs(v, d, p);
    assert PaymentTag(p.id) in ConflictIds(v, d);
  }

  lemma SharedIsBlocked(v: View, a: Order, b: Order, p: Payment)
    requires Identified(v) && Matched(v, a) && Matched(v, b) && p in Group(v, a) && p in Group(v, b) && a != b
    ensures PaymentTag(p.id) in BlockedByMatching(v) && Contested(v, p.id)
  {
    hide Conflicting, Group;
    assert OrderId(a) != OrderId(b);
    assert a.id in Claimants(v, p.id) && b.id in Claimants(v, p.id);
    TwoMembers(Claimants(v, p.id), a.id, b.id);
    assert p.id in Claimed(v) && PaymentTag(p.id) in ClaimIds(v, p.id);
  }

  lemma TangleFound(v: View, o: Order, i: string)
    requires Identified(v) && Linked(v, o) && i in GroupIds(v, o) && i in BlockedByMatching(v)
    ensures !Untangled(v, o)
  {
    hide Linked, Garbled, Belongs, Group, Matched, Mismatched, Points, Resolved, Contested;
    LinkedIs(v, o);
    if d, j :| d in v.orders && Mismatched(v, d) && j in ConflictIds(v, d) && j == i {
      LinkedIs(v, d);
      TangledByGarbled(v, o, d, i);
    } else {
      var id :| id in Claimed(v) && Contested(v, id) && i in ClaimIds(v, id);
      TangledByClaim(v, o, id, i);
    }
  }

  lemma TangledByGarbled(v: View, o: Order, d: Order, i: string)
    requires Identified(v) && Linked(v, o) && Garbled(v, d) && i in GroupIds(v, o) && i in ConflictIds(v, d)
    ensures !Untangled(v, o)
  {
    hide Belongs, Group, Points, Resolved, Clear, ByStripe;
    assert OrderId(o) != OrderId(d);
    forall a, b { TagsApart(a, b); }
    assert i != OrderTag(o.id);
    var p :| p in Group(v, o) && i == PaymentTag(p.id);
    var id :| id in Resolved(v, d) && i == PaymentTag(id);
    BelongsIs(v, o, p);
    BelongsAreKnown(v, o, p);
    PointsIs(v, d, p);
  }

  lemma BelongsAreKnown(v: View, o: Order, p: Payment)
    requires Belongs(v, o, p)
    ensures p in v.payments
  {
  }

  lemma TangledByClaim(v: View, o: Order, id: string, i: string)
    requires Identified(v) && Linked(v, o) && Contested(v, id) && i in GroupIds(v, o) && i in ClaimIds(v, id)
    ensures !Untangled(v, o)
  {
    hide Belongs, Group, Points, Matched, Linked;
    var a := AnotherMember(Claimants(v, id), o.id);
    var d, q :| d in v.orders && Matched(v, d) && q in Group(v, d) && q.id == id && d.id == a;
    LinkedIs(v, d);
    BelongsIs(v, d, q);
    forall x, y { TagsApart(x, y); }
    if i == OrderTag(o.id) {
      var e, r :| e in v.orders && Matched(v, e) && r in Group(v, e) && r.id == id && e.id == o.id;
      SameOrder(v, e, o);
      BelongsIs(v, o, r);
      SamePayment(v, d, q, o, r);
    } else {
      var p :| p in Group(v, o) && i == PaymentTag(p.id);
      assert i == PaymentTag(id);
      BelongsIs(v, o, p);
      SamePayment(v, d, q, o, p);
    }
  }

  lemma SameOrder(v: View, a: Order, b: Order)
    requires Identified(v) && a in v.orders && Linked(v, b) && a.id == b.id
    ensures a == b
  {
    hide Clear;
    assert OrderId(a) == OrderId(b);
  }

  lemma SamePayment(v: View, a: Order, p: Payment, b: Order, q: Payment)
    requires Identified(v) && Belongs(v, a, p) && Belongs(v, b, q) && p.id == q.id
    ensures p == q
  {
    hide Points;
    assert PaymentId(p) == PaymentId(q);
  }

  // ----- what is covered -----

  lemma ReachIs(v: View, t: Time)
    requires Stale(v) == {}
    ensures InReach(v, t) <==> t <= Through(v)
  {
    var through := SomeThrough(v);
    assert exists u :: IsThrough(v, u);
  }

  lemma SomeThrough(v: View) returns (t: Time)
    requires Stale(v) == {}
    ensures IsThrough(v, t)
  {
    assert "woo_orders" !in Stale(v);
    var c :| c in v.coverage && c.source == "woo_orders";
    t := LeastThrough(v, v.coverage, c);
  }

  lemma {:induction false} LeastThrough(v: View, some: set<Coverage>, c: Coverage) returns (t: Time)
    requires c in some && some <= v.coverage && c.source in REQUIRED
    ensures exists d :: d in some && d.source in REQUIRED && d.coveredThrough == t
    ensures forall d :: d in some && d.source in REQUIRED ==> t <= d.coveredThrough
    decreases some
  {
    if d :| d in some && d != c && d.source in REQUIRED && d.coveredThrough <= c.coveredThrough {
      t := LeastThrough(v, some - {c}, d);
    } else if e :| e in some && e != c {
      t := LeastThrough(v, some - {e}, c);
    } else {
      t := c.coveredThrough;
    }
  }

  lemma RipeIs(v: View, o: Order)
    requires Identified(v) && Stale(v) == {}
    ensures Ripe(v, o) <==> Examined(v, o) && !Held(v, o)
  {
    hide Linked, Untangled, Belongs, Group, BlockedByMatching, Matched, InReach, Identified, Stale, Through,
      WooRefunds, OrderRefunds, StripeRefunds, Receipts, RefundsWithin, Sum;
    LinkedIs(v, o);
    if Matched(v, o) {
      UntangledIs(v, o);
      OwnTagInGroup(v, o);
      assert OrderTag(o.id) in BlockedByMatching(v) ==> OrderTag(o.id) in GroupIds(v, o) * BlockedByMatching(v);
      forall p { BelongsIs(v, o, p); }
      forall t { ReachIs(v, t); }
    }
  }

  // ----- payments and refunds of an order -----

  ghost predicate Paid(v: View, o: Order, p: Payment) { Belongs(v, o, p) && p.status == "succeeded" }

  ghost predicate Returning(v: View, p: Payment, r: Refund) {
    r in v.refunds && r.source == Stripe && r.parentId == p.id && r.status == "succeeded"
  }

  /** The whole receipt went back, in its own unit, and long enough ago. */
  ghost predicate GivenBack(v: View, p: Payment) {
    && p.received.minor > 0
    && Sum(set r | r in v.refunds && Returning(v, p, r)) == p.received.minor
    && (exists r :: Returning(v, p, r))
    && forall r :: Returning(v, p, r) ==>
         && r.amount.currency == p.received.currency && r.amount.exponent == p.received.exponent
         && r.changedAt + v.base.policy.refundGrace <= v.base.now
         && InReach(v, r.changedAt + v.base.policy.refundGrace)
  }

  ghost predicate IsKept(v: View, o: Order, k: Payment) {
    && Paid(v, o, k) && !GivenBack(v, k)
    && (exists p :: Paid(v, o, p) && p != k)
    && (forall p :: Paid(v, o, p) && p != k ==> GivenBack(v, p))
  }

  /** Of several payments that succeeded, all but one were given back. */
  ghost predicate KeptOne(v: View, o: Order) { exists k :: IsKept(v, o, k) }

  /** Money returned on the order's payments; giving back a duplicate does not count. */
  ghost predicate Counts(v: View, o: Order, r: Refund) {
    exists p :: Belongs(v, o, p) && Returning(v, p, r)
      && !(KeptOne(v, o) && p.status == "succeeded" && GivenBack(v, p))
  }

  ghost function Counted(v: View, o: Order): set<Refund> { set r | r in v.refunds && Counts(v, o, r) }

  /** What the shop recorded of its own refunds of the order. */
  ghost function Recorded(v: View, o: Order): set<Refund> {
    set r | r in v.refunds && r.source == Woo && r.parentId == o.id
  }

  lemma PaidIs(v: View, o: Order, p: Payment)
    requires Identified(v)
    ensures p in Receipts(v, o) <==> Paid(v, o, p)
  {
    hide Belongs, Group;
    BelongsIs(v, o, p);
  }

  lemma ReturningIs(v: View, p: Payment)
    ensures RefundsOf(v, p) == set r | r in v.refunds && Returning(v, p, r)
    ensures forall r :: r in RefundsOf(v, p) <==> Returning(v, p, r)
  {
    forall r ensures r in RefundsOf(v, p) <==> Returning(v, p, r) {}
  }

  lemma GivenBackIs(v: View, p: Payment)
    requires Stale(v) == {}
    ensures GivenBack(v, p) <==> Returned(v, p)
  {
    hide Stale, Through, InReach, Returning, Sum;
    ReturningIs(v, p);
    forall t { ReachIs(v, t); }
  }

  lemma CompensatedIs(v: View, o: Order, p: Payment)
    requires Identified(v) && Stale(v) == {} && p in Receipts(v, o)
    ensures p.id in Compensated(v, o) <==> GivenBack(v, p)
  {
    hide GivenBack, Returned;
    GivenBackIs(v, p);
    if p.id in Compensated(v, o) {
      var q :| q in Receipts(v, o) && Returned(v, q) && q.id == p.id;
      assert PaymentId(q) == PaymentId(p);
    }
  }

  lemma KeptOneIs(v: View, o: Order)
    requires Identified(v) && Stale(v) == {}
    ensures KeptOne(v, o) <==> Corrected(v, o)
  {
    hide GivenBack, Returned, Belongs, Stale, Identified, Receipts;
    var all, gone := Receipts(v, o), Reversed(v, o);
    ReversedCount(v, o);
    forall p ensures p in all <==> Paid(v, o, p) { PaidIs(v, o, p); }
    forall p ensures GivenBack(v, p) <==> Returned(v, p) { GivenBackIs(v, p); }
    hide Paid, Compensated;
    if Corrected(v, o) {
      var k := OneLeft(all, gone);
      var p := AnotherMember(all, k);
      assert p in gone && k in all;
      assert IsKept(v, o, k);
    }
    if k :| IsKept(v, o, k) {
      assert all == gone + {k} && k !in gone;
      var p :| Paid(v, o, p) && p != k;
      TwoMembers(all, p, k);
      assert |all| == |gone| + 1;
    }
  }

  lemma CountedIs(v: View, o: Order)
    requires Identified(v) && Stale(v) == {}
    ensures Counted(v, o) == StripeRefunds(v, o) && Recorded(v, o) == WooRefunds(v, o)
  {
    hide GivenBack, Belongs, Stale, Receipts, Compensated, Corrected, KeptOne, Identified, Group;
    KeptOneIs(v, o);
    forall r ensures r in Counted(v, o) <==> r in StripeRefunds(v, o) {
      if p :| Belongs(v, o, p) && Returning(v, p, r) {
        BelongsIs(v, o, p);
        IsReversal(v, o, p);
        SoleParent(v, o, p, r);
      }
      if r in StripeRefunds(v, o) {
        var p :| p in Group(v, o) && Returns(r, p);
        BelongsIs(v, o, p);
        IsReversal(v, o, p);
      }
    }
  }

  /** The payment's id is among the compensated ones exactly when it succeeded and was given back. */
  lemma IsReversal(v: View, o: Order, p: Payment)
    requires Identified(v) && Stale(v) == {} && Belongs(v, o, p)
    ensures p.id in Compensated(v, o) <==> p.status == "succeeded" && GivenBack(v, p)
  {
    hide GivenBack, Belongs, Returned, Stale;
    PaidIs(v, o, p);
    if p in Receipts(v, o) {
      CompensatedIs(v, o, p);
    } else if p.id in Compensated(v, o) {
      var q :| q in Receipts(v, o) && Returned(v, q) && q.id == p.id;
      BelongsIs(v, o, q);
      SamePayment(v, o, p, o, q);
    }
  }

  lemma SoleParent(v: View, o: Order, p: Payment, r: Refund)
    requires Identified(v) && Belongs(v, o, p) && Returning(v, p, r)
    ensures forall q :: Belongs(v, o, q) && Returning(v, q, r) ==> q == p
  {
    hide Points;
    forall q | Belongs(v, o, q) && Returning(v, q, r) ensures q == p { SamePayment(v, o, p, o, q); }
  }

  ghost predicate RefundsInReach(v: View, o: Order) {
    forall r :: r in Counted(v, o) + Recorded(v, o) ==> InReach(v, r.changedAt)
  }

  ghost predicate OneUnit(v: View, o: Order) {
    forall r :: r in Counted(v, o) + Recorded(v, o) ==>
      r.amount.currency == o.amount.currency && r.amount.exponent == o.amount.exponent
  }

  /** Nobody returned more than was paid. */
  ghost predicate Bounded(v: View, o: Order) {
    && o.refunded.minor <= o.amount.minor
    && forall p :: Paid(v, o, p) ==> Sum(set r | r in Counted(v, o) && r.parentId == p.id) <= p.received.minor
  }

  /** If the shop recorded refunds, they are all that it says was refunded. */
  ghost predicate AddsUp(v: View, o: Order) { Recorded(v, o) != {} ==> Sum(Recorded(v, o)) == o.refunded.minor }

  ghost predicate Sane(v: View, o: Order) { Bounded(v, o) && AddsUp(v, o) }

  ghost predicate Comparable(v: View, o: Order) {
    Ripe(v, o) && RefundsInReach(v, o) && OneUnit(v, o) && Sane(v, o)
  }

  lemma StageIs(v: View, o: Order)
    requires Identified(v) && Stale(v) == {} && Ripe(v, o)
    ensures StageOf(v, o) == Judged <==> RefundsInReach(v, o) && OneUnit(v, o) && Sane(v, o)
    ensures StageOf(v, o) == MixedCurrency <==> RefundsInReach(v, o) && !OneUnit(v, o)
    ensures StageOf(v, o) == Excess <==> RefundsInReach(v, o) && OneUnit(v, o) && !Bounded(v, o)
    ensures StageOf(v, o) == Inconsistent <==>
              RefundsInReach(v, o) && OneUnit(v, o) && Bounded(v, o) && !AddsUp(v, o)
  {
    hide Counted, Recorded, Ripe, StripeRefunds, WooRefunds, Receipts, Paid, Identified, Stale, Through, Sum, GroupIds,
      BlockedByMatching, InReach, Examined, Group;
    CountedIs(v, o);
    RipeIs(v, o);
    forall t { ReachIs(v, t); }
    forall p ensures p in Receipts(v, o) <==> Paid(v, o, p) { PaidIs(v, o, p); }
    forall p ensures RefundsWithin(StripeRefunds(v, o), p) == set r | r in Counted(v, o) && r.parentId == p.id {}
  }
}
