/** A snapshot whose evaluation reports an order and blocks it. */
module EngineExample {
  import opened Wrappers
  import opened Ordering
  import opened Money
  import opened Domain
  import opened EngineSpec
  import opened EngineLemmas
  import opened EngineProperties

  const NOW: Time := 1_000_000

  function Covering(source: string): Coverage { Coverage(source, 0, NOW, NOW, true, 0) }

  const COVERAGE: seq<Coverage> :=
    [Covering("stripe_payments"), Covering("stripe_refunds"), Covering("woo_orders"), Covering("woo_refunds")]

  /** Paid according to the shop, without any payment, and refunded twice over. */
  const ORDER := Order(
    "1", "store", "live", "processing", Money(100, "BIF", 0), Money(200, "BIF", 0), 10, 10, None, "stripe", "", "", "",
    "", "observation")

  const SNAPSHOT := Snapshot(
    "organization", "store", "account", "live", NOW, 0, [], [ORDER], [], COVERAGE, true, false, [],
    Policy(1, 300, 3600, 3600, 1800, [], false))

  lemma FourSources()
    ensures |Keys(COVERAGE, CoverageSource)| == 4
  {
    var keys := Keys(COVERAGE, CoverageSource);
    forall k | k in REQUIRED ensures k in keys {
      if k == "stripe_payments" {
        assert COVERAGE[0] in COVERAGE;
      } else if k == "stripe_refunds" {
        assert COVERAGE[1] in COVERAGE;
      } else if k == "woo_orders" {
        assert COVERAGE[2] in COVERAGE;
      } else {
        assert COVERAGE[3] in COVERAGE;
      }
    }
    forall k | k in keys ensures k in REQUIRED {
      var c :| c in COVERAGE && c.source == k;
    }
    assert keys == REQUIRED;
    FourRequired();
  }

  lemma FourRequired()
    ensures |REQUIRED| == 4
  {
    FourLengths("stripe_payments", "stripe_refunds", "woo_orders", "woo_refunds");
  }

  lemma FourLengths(a: string, b: string, c: string, d: string)
    requires |a| > |b| > |d| > |c|
    ensures |{a, b, c, d}| == 4
  {
    assert a != b && a != c && a != d && b != c && b != d && c != d;
    assert b !in {a} && c !in {a, b} && d !in {a, b, c};
    assert |{a, b}| == 2 && |{a, b, c}| == 3;
  }

  lemma OneKey<T, K>(x: T, key: T -> K)
    ensures Keys([x], key) == {key(x)} && |Keys([x], key)| == 1
  {
    assert x in [x];
  }

  lemma NoKeys<T, K>(key: T -> K)
    ensures |Keys([], key)| == 0
  {
    assert Keys([], key) == {};
  }

  lemma Accepted()
    ensures InputError(SNAPSHOT).None?
  {
    hide Keys, Covering;
    FourSources();
    OneKey(ORDER, OrderId);
    NoKeys(PaymentId);
    NoKeys(RefundKey);
  }

  lemma Fresh(codec: Codec)
    ensures Stale(ViewOf(SNAPSHOT, codec)) == {}
    ensures Through(ViewOf(SNAPSHOT, codec)) == NOW
  {
    var v := ViewOf(SNAPSHOT, codec);
    forall k | k in REQUIRED ensures Covered(v, k) {
      assert Covering(k) in COVERAGE;
      assert Covering(k) in v.coverage;
    }
    assert Covering("woo_orders") in v.coverage;
    assert IsThrough(v, NOW);
  }

  lemma Unpaid(codec: Codec)
    ensures var v := ViewOf(SNAPSHOT, codec);
      && v.orders == {ORDER} && Group(v, ORDER) == {} && Receipts(v, ORDER) == {}
      && Examined(v, ORDER) && BlockedByMatching(v) == {}
  {
    var v := ViewOf(SNAPSHOT, codec);
    assert v.orders == {ORDER};
    assert Resolved(v, ORDER) == {} && References(ORDER) == {} && Unresolved(v, ORDER) == {};
    assert Claimed(v) == {};
    assert !Mismatched(v, ORDER);
  }

  lemma RefundStopsIt(codec: Codec)
    ensures StageOf(ViewOf(SNAPSHOT, codec), ORDER) == Excess
  {
    hide Through;
    Unpaid(codec);
    Fresh(codec);
    assert OrderRefunds(ViewOf(SNAPSHOT, codec), ORDER) == {};
  }

  /** What is emitted about an examined order is among the emissions. */
  lemma {:induction false} Listed(v: View, orders: seq<Order>, o: Order, q: Proposal)
    requires o in orders && Examined(v, o) && q in OrderEmissions(v, o)
    ensures q in ExaminedEmissions(v, orders)
  {
    hide Examined, OrderEmissions;
    if o != orders[|orders| - 1] { Listed(v, orders[..|orders| - 1], o, q); }
  }

  lemma Emitted(v: View, q: Proposal)
    requires v.orders == {ORDER} && Examined(v, ORDER) && q in OrderEmissions(v, ORDER)
    ensures q in Emissions(v)
  {
    hide Examined, OrderEmissions;
    ListingEmpty(v.orders, OrderId);
    Listed(v, Listing(v.orders, OrderId), ORDER, q);
  }

  lemma Proposed(codec: Codec)
    ensures var v := ViewOf(SNAPSHOT, codec);
      MissingProposal(v, ORDER) in OrderEmissions(v, ORDER) && MissingProposal(v, ORDER).rule == PI003
  {
    var v := ViewOf(SNAPSHOT, codec);
    Unpaid(codec);
    RefundStopsIt(codec);
    hide StageOf, Receipts, BaseFacts, Confidence, Listing, SettledEmissions, PairEmissions;
    assert Enabled(v, PI003);
  }

  lemma Returned(v: View, q: Proposal, i: string)
    requires q in Emissions(v) && i in Names(q) && i in Blocked(v)
    requires !exists o :: o in v.orders && Overflows(v, o)
    ensures Reconciled(v).Ok?
    ensures var e := Reconciled(v).value; q in e.proposals && i in q.identities && i in e.blocked
  {
    hide Emissions, Blocked, Warnings, Digest, SortBy, Listing, Overflows, EnabledRules;
    SortBySorts(Emissions(v), ProposalKey);
    SameElements(Emissions(v), SortBy(Emissions(v), ProposalKey));
    assert forall x :: x in Emissions(v) <==> x in ToSet(Emissions(v));
    ListingEmpty(Blocked(v), Self);
  }

  lemma AnswersReconciled(codec: Codec)
    ensures Answer(SNAPSHOT, codec) == Reconciled(ViewOf(SNAPSHOT, codec)) && Identified(ViewOf(SNAPSHOT, codec))
  {
    hide InputError, Reconciled, Stale, Identified;
    Accepted();
    Fresh(codec);
    ChecksIdentify(SNAPSHOT, codec);
  }

  lemma NoOverflow(v: View)
    requires v.orders == {ORDER} && StageOf(v, ORDER) == Excess
    ensures !exists o :: o in v.orders && Overflows(v, o)
  {
    hide StageOf, Examined, Difference;
  }

  lemma BifListed()
    ensures Currency.Exponent("BIF") == Some(0)
  {
    var first: string := "BIF CLP DJF GNF ";
    assert first[..3] == "BIF" && first <= Currency.NO_DIGITS;
    assert Currency.NO_DIGITS[..3] == first[..3];
  }

  lemma Constructible()
    ensures SNAPSHOT.Valid()
  {
    hide Covering;
    BifListed();
    assert ORDER.amount.Valid() && ORDER.refunded.Valid();
    assert ORDER.id[0] == '1' && IsDigits(ORDER.id);
    assert ORDER.Valid();
  }

  /** The snapshot can be received; its evaluation proposes PI-003 about the order, and lists the order as blocked. */
  lemma BlockedOrderIsReported(codec: Codec)
    ensures SNAPSHOT.Valid()
    ensures Answer(SNAPSHOT, codec).Ok?
    ensures var e := Answer(SNAPSHOT, codec).value;
      exists q, i :: q in e.proposals && q.rule == PI003 && i in q.identities && i in e.blocked
  {
    hide Answer, Reconciled, ViewOf, MissingProposal, Emissions, OrderEmissions, Examined, StageOf, Blocked, Overflows,
      Identified;
    var v := ViewOf(SNAPSHOT, codec);
    var q := MissingProposal(v, ORDER);
    Constructible();
    AnswersReconciled(codec);
    Unpaid(codec);
    RefundStopsIt(codec);
    Proposed(codec);
    NoOverflow(v);
    Emitted(v, q);
    StoppedOrderReported(v, ORDER, q);
    Returned(v, q, OrderTag(ORDER.id));
  }
}
