/** Money accounting for an order whose duplicate payments were returned. */
module EngineConservation {
  import opened Domain
  import opened EngineSpec
  import opened EngineLemmas
  import opened Ordering
  import Currency
  import Extractor

  /** Every succeeded Stripe refund of the order's group. */
  ghost function GroupRefunds(v: View, o: Order): set<Refund> {
    set r, p | p in Group(v, o) && r in RefundsOf(v, p) :: r
  }

  /** The refunds that returned the duplicate receipts. */
  ghost function ReversalRefunds(v: View, payments: set<Payment>): set<Refund> {
    set r, p | p in payments && r in RefundsOf(v, p) :: r
  }

  ghost function Reversed(v: View, o: Order): set<Payment> {
    set p | p in Receipts(v, o) && Returned(v, p)
  }

  /** The minor units received by a set of payments. */
  ghost function Received(s: set<Payment>): int {
    if s == {} then 0 else var p :| p in s; p.received.minor + Received(s - {p})
  }

  lemma {:induction false} ReceivedAdd(s: set<Payment>, p: Payment)
    requires p !in s
    ensures Received(s + {p}) == Received(s) + p.received.minor
    decreases s
  {
    var t := s + {p};
    var x :| x in t && Received(t) == x.received.minor + Received(t - {x});
    if x == p {
      assert t - {x} == s;
    } else {
      var rest := s - {x};
      assert t - {x} == rest + {p} && s == rest + {x};
      ReceivedAdd(rest, p);
      ReceivedAdd(rest, x);
    }
  }

  lemma {:induction false} SumUnion(a: set<Refund>, b: set<Refund>)
    requires a !! b
    ensures Sum(a + b) == Sum(a) + Sum(b)
    decreases b
  {
    if b == {} {
      assert a + b == a;
    } else {
      var r :| r in b;
      SumUnion(a, b - {r});
      assert a + b == (a + (b - {r})) + {r} && b == (b - {r}) + {r};
      SumAdd(a + (b - {r}), r);
      SumAdd(b - {r}, r);
    }
  }

  lemma {:induction false} ReversalsBalance(v: View, payments: set<Payment>)
    requires Identified(v) && payments <= v.payments
    requires forall p :: p in payments ==> Returned(v, p)
    ensures Sum(ReversalRefunds(v, payments)) == Received(payments)
    decreases payments
  {
    if payments != {} {
      var p :| p in payments;
      var rest := payments - {p};
      ReversalsBalance(v, rest);
      assert payments == rest + {p};
      ReceivedAdd(rest, p);
      OwnRefunds(v, rest, p);
      SumUnion(ReversalRefunds(v, rest), RefundsOf(v, p));
    } else {
      assert ReversalRefunds(v, payments) == {};
    }
  }

  lemma OwnRefunds(v: View, rest: set<Payment>, p: Payment)
    requires Identified(v) && rest <= v.payments && p in v.payments && p !in rest
    ensures ReversalRefunds(v, rest) !! RefundsOf(v, p)
    ensures ReversalRefunds(v, rest + {p}) == ReversalRefunds(v, rest) + RefundsOf(v, p)
  {
    forall r | r in ReversalRefunds(v, rest) ensures r !in RefundsOf(v, p) {
      var q :| q in rest && r in RefundsOf(v, q);
      assert PaymentId(q) != PaymentId(p);
    }
  }

  lemma ReversedCount(v: View, o: Order)
    requires Identified(v)
    ensures |Compensated(v, o)| == |Reversed(v, o)|
  {
    hide Returned;
    AsManyIds(v, Reversed(v, o));
    assert Compensated(v, o) == set p | p in Reversed(v, o) :: p.id;
  }

  /**
   When an order counts as a corrected duplicate, what its payments received less what their reversals returned is what
   exactly one retained payment received; each other receipt was returned in full, in its own unit.
   */
  lemma DuplicateConservation(v: View, o: Order) returns (retained: Payment)
    requires Identified(v) && Corrected(v, o)
    ensures Receipts(v, o) - Reversed(v, o) == {retained}
    ensures Received(Receipts(v, o)) - Sum(ReversalRefunds(v, Reversed(v, o))) == retained.received.minor
    ensures forall p :: p in Receipts(v, o) && p != retained ==> ReturnedInFull(v, p)
  {
    hide Returned, ReturnedInFull, Receipts, Sum, Received, Identified, ReversalRefunds, Compensated;
    ReversedCount(v, o);
    forall p | p in Reversed(v, o) ensures ReturnedInFull(v, p) { FullReturn(v, p); }
    var all, gone := Receipts(v, o), Reversed(v, o);
    retained := OneLeft(all, gone);
    ReceivedAdd(gone, retained);
    ReceiptsKnown(v, o);
    ReversalsBalance(v, gone);
  }

  /** The refunds of a payment add up to its receipt, in the receipt's unit. */
  ghost predicate ReturnedInFull(v: View, p: Payment) {
    Sum(RefundsOf(v, p)) == p.received.minor && forall r :: r in RefundsOf(v, p) ==> SameUnit(r.amount, p.received)
  }

  lemma FullReturn(v: View, p: Payment)
    requires Returned(v, p)
    ensures ReturnedInFull(v, p)
  {
  }

  lemma OneLeft<T>(all: set<T>, gone: set<T>) returns (x: T)
    requires gone <= all && |all| - |gone| == 1
    ensures all - gone == {x} && all == gone + {x} && x !in gone
  {
    assert |all - gone| == 1;
    x :| x in all - gone;
    assert |(all - gone) - {x}| == 0;
  }

  lemma ReceiptsKnown(v: View, o: Order)
    ensures Receipts(v, o) <= v.payments
  {
  }

  /** Reversals and counted refunds split the succeeded Stripe refunds of the group between them. */
  lemma RefundsPartition(v: View, o: Order)
    requires Identified(v) && Corrected(v, o)
    ensures StripeRefunds(v, o) !! ReversalRefunds(v, Reversed(v, o))
    ensures StripeRefunds(v, o) + ReversalRefunds(v, Reversed(v, o)) == GroupRefunds(v, o)
    ensures Sum(GroupRefunds(v, o)) == Sum(StripeRefunds(v, o)) + Received(Reversed(v, o))
  {
    hide Returned, Corrected, Group, Sum;
    assert Corrected(v, o);
    forall r | r in GroupRefunds(v, o) ensures r in StripeRefunds(v, o) || r in ReversalRefunds(v, Reversed(v, o)) {
      var p :| p in Group(v, o) && r in RefundsOf(v, p);
      if r.parentId in Compensated(v, o) {
        ReversalOf(v, o, r);
      } else {
        assert Returns(r, p);
      }
    }
    forall r | r in ReversalRefunds(v, Reversed(v, o)) ensures r in GroupRefunds(v, o) && r !in StripeRefunds(v, o) {
      var p :| p in Reversed(v, o) && r in RefundsOf(v, p);
      assert p.id in Compensated(v, o);
    }
    forall r | r in StripeRefunds(v, o) ensures r in GroupRefunds(v, o) {
      var p :| p in Group(v, o) && Returns(r, p);
      assert r in RefundsOf(v, p);
    }
    SumUnion(StripeRefunds(v, o), ReversalRefunds(v, Reversed(v, o)));
    ReceiptsKnown(v, o);
    ReversalsBalance(v, Reversed(v, o));
  }

  lemma ReversalOf(v: View, o: Order, r: Refund)
    requires r in GroupRefunds(v, o) && r.parentId in Compensated(v, o)
    ensures r in ReversalRefunds(v, Reversed(v, o))
  {
    hide Returned;
    var p :| p in Receipts(v, o) && Returned(v, p) && p.id == r.parentId;
    assert p in Reversed(v, o) && r in RefundsOf(v, p);
  }

  // ----- one extraction of an order and its refunds -----

  /** The refund facts carry the server's parses of the amounts that the plugin sent. */
  ghost predicate ParsedFrom(refunds: seq<Refund>, amounts: seq<string>, currency: string) {
    && |refunds| == |amounts|
    && forall i :: 0 <= i < |refunds| ==>
         && Extractor.DecimalText(amounts[i]).Ok?
         && Money.ParseWoo(Extractor.DecimalText(amounts[i]).value, currency).Ok?
         && Money.ParseWoo(Extractor.DecimalText(amounts[i]).value, currency).value == refunds[i].amount
  }

  lemma {:induction false} ParsedSum(refunds: seq<Refund>, amounts: seq<string>, currency: string)
    requires ParsedFrom(refunds, amounts, currency)
    ensures forall i :: 0 <= i < |amounts| ==>
              Extractor.ServerAccepts(amounts[i], currency, Currency.Exponent(currency))
    ensures SumSeq(refunds) == Extractor.MinorSum(amounts, currency, Currency.Exponent(currency))
  {
    hide Currency.Exponent, Extractor.DecimalText, Money.ParseAt;
    if refunds != [] {
      var n := |refunds| - 1;
      ParsedSum(refunds[..n], amounts[..n], currency);
      assert Extractor.ServerAccepts(amounts[n], currency, Currency.Exponent(currency));
    }
  }

  lemma InconsistentMeans(v: View, o: Order)
    ensures StageOf(v, o) == Inconsistent ==> Sum(WooRefunds(v, o)) != o.refunded.minor
  {
    hide Sum, WooRefunds, StripeRefunds, Through, GroupIds, BlockedByMatching, Receipts, Group;
  }

  lemma ParsedTotal(amounts: seq<string>, total: string, currency: string)
    requires Extractor.Total(amounts).Ok? && Extractor.Renders(total, Extractor.Total(amounts).value)
    requires Money.ParseWoo(total, currency).Ok?
    requires forall i :: 0 <= i < |amounts| ==>
               Extractor.ServerAccepts(amounts[i], currency, Currency.Exponent(currency))
    ensures Money.ParseWoo(total, currency).value.minor
         == Extractor.MinorSum(amounts, currency, Currency.Exponent(currency))
  {
    hide Extractor.Total, Extractor.Renders, Extractor.ServerAccepts;
    Extractor.TotalsAgreeAt(amounts, total, currency, Currency.Exponent(currency).value);
  }

  /**
   When an order's refunded total and its refund facts come from one extraction, and the server could parse them, the
   engine never finds them inconsistent.
   */
  lemma ExtractionIsConsistent(v: View, o: Order, refunds: seq<Refund>, amounts: seq<string>, total: string,
      currency: string)
    requires ToSet(refunds) == WooRefunds(v, o) && Distinct(refunds) && ParsedFrom(refunds, amounts, currency)
    requires Extractor.Total(amounts).Ok? && Extractor.Renders(total, Extractor.Total(amounts).value)
    requires Money.ParseWoo(total, currency).Ok? && Money.ParseWoo(total, currency).value == o.refunded
    ensures StageOf(v, o) != Inconsistent
  {
    hide Currency.Exponent, Extractor.Total, Extractor.Renders, Money.ParseWoo,
      Extractor.ServerAccepts, WooRefunds, Sum, StageOf;
    InconsistentMeans(v, o);
    ParsedSum(refunds, amounts, currency);
    ParsedTotal(amounts, total, currency);
    SumSeqIs(refunds);
  }
}
