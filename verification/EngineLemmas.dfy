/** Why the engine may read the blocked set while it grows. */
module EngineLemmas {
  import opened Ordering
  import opened Domain
  import opened EngineSpec

  lemma TagsApart(a: string, b: string)
    ensures OrderTag(a) != PaymentTag(b)
    ensures OrderTag(a) == OrderTag(b) <==> a == b
    ensures PaymentTag(a) == PaymentTag(b) <==> a == b
  {
    assert OrderTag(a)[0] == 'o' && PaymentTag(b)[0] == 'p';
    assert OrderTag(a)[6..] == a && OrderTag(b)[6..] == b;
    assert PaymentTag(a)[8..] == a && PaymentTag(b)[8..] == b;
  }

  lemma AnotherMember<T>(s: set<T>, x: T) returns (y: T)
    requires |s| > 1
    ensures y in s && y != x
  {
    var others := s - {x};
    assert |others| >= |s| - 1;
    y :| y in others;
  }

  lemma TwoMembers<T>(s: set<T>, a: T, b: T)
    requires a in s && b in s && a != b
    ensures |s| > 1
  {
    assert {a, b} <= s;
    assert |s - {a, b}| == |s| - 2;
  }

  lemma BlocksAreOwn(v: View, o: Order)
    ensures OrderBlocks(v, o) <= GroupIds(v, o)
  {
  }

  /** A payment that two matched orders share blocks both of them. */
  lemma SharedPaymentBlocks(v: View, a: Order, b: Order, p: Payment)
    requires Matched(v, a) && Matched(v, b) && a.id != b.id && p in Group(v, a) && p in Group(v, b)
    ensures OrderTag(a.id) in BlockedByMatching(v)
  {
    assert a.id in Claimants(v, p.id) && b.id in Claimants(v, p.id);
    TwoMembers(Claimants(v, p.id), a.id, b.id);
    assert p.id in Claimed(v) && Contested(v, p.id);
    assert OrderTag(a.id) in ClaimIds(v, p.id);
  }

  /** Two different examined orders name no common identity. */
  lemma ExaminedDisjoint(v: View, a: Order, b: Order)
    requires Identified(v) && Examined(v, a) && Examined(v, b) && a != b
    ensures GroupIds(v, a) !! GroupIds(v, b)
  {
    assert a.id != b.id by { assert OrderId(a) != OrderId(b); }
    forall i | i in GroupIds(v, a) ensures i !in GroupIds(v, b) {
      if i == OrderTag(a.id) {
        TagsApart(a.id, b.id);
        forall q | q in Group(v, b) ensures i != PaymentTag(q.id) { TagsApart(a.id, q.id); }
      } else {
        var p :| p in Group(v, a) && i == PaymentTag(p.id);
        TagsApart(b.id, p.id);
        forall q | q in Group(v, b) ensures i != PaymentTag(q.id) {
          TagsApart(p.id, q.id);
          if p.id == q.id {
            assert PaymentId(p) == PaymentId(q);
            SharedPaymentBlocks(v, a, b, p);
          }
        }
      }
    }
  }

  /** Reading the blocked set before or after other orders have added to it decides alike. */
  lemma GrowthIrrelevant(v: View, done: set<Order>, o: Order)
    requires Identified(v) && done <= v.orders && o in v.orders && o !in done
    ensures OrderTag(o.id) !in BlockedByOrders(v, done)
    ensures Examined(v, o) ==> GroupIds(v, o) !! BlockedByOrders(v, done)
  {
    forall i | i in BlockedByOrders(v, done) ensures i != OrderTag(o.id) && (Examined(v, o) ==> i !in GroupIds(v, o)) {
      var d :| d in done && Examined(v, d) && i in OrderBlocks(v, d);
      BlocksAreOwn(v, d);
      assert OrderId(d) != OrderId(o);
      TagsApart(d.id, o.id);
      forall q | q in Group(v, d) ensures PaymentTag(q.id) != OrderTag(o.id) { TagsApart(o.id, q.id); }
      if Examined(v, o) {
        ExaminedDisjoint(v, o, d);
      }
    }
  }

  /** The same for payments that no order claims. */
  lemma UnclaimedUntouched(v: View, done: set<Payment>, p: Payment)
    requires Identified(v) && p in v.payments && done <= v.payments && p !in done && p.id !in Claimed(v)
    ensures PaymentTag(p.id) !in BlockedByOrders(v, v.orders)
    ensures PaymentTag(p.id) !in BlockedLoose(v, done)
  {
    forall i | i in BlockedByOrders(v, v.orders) ensures i != PaymentTag(p.id) {
      var d :| d in v.orders && Examined(v, d) && i in OrderBlocks(v, d);
      BlocksAreOwn(v, d);
      TagsApart(d.id, p.id);
      forall q | q in Group(v, d) ensures PaymentTag(q.id) != PaymentTag(p.id) {
        TagsApart(p.id, q.id);
        assert q.id in Claimed(v);
      }
    }
    forall i | i in BlockedLoose(v, done) ensures i != PaymentTag(p.id) {
      var d :| d in done && i in LooseBlocks(v, d);
      assert PaymentId(d) != PaymentId(p);
      TagsApart(d.id, p.id);
    }
  }

  // ----- sums, sizes and maxima of sets -----

  lemma {:induction false} SumAdd(s: set<Refund>, r: Refund)
    requires r !in s
    ensures Sum(s + {r}) == Sum(s) + r.amount.minor
    decreases s
  {
    var t := s + {r};
    var x :| x in t && Sum(t) == x.amount.minor + Sum(t - {x});
    if x == r {
      assert t - {x} == s;
    } else {
      var rest := s - {x};
      assert t - {x} == rest + {r} && s == rest + {x};
      SumAdd(rest, r);
      SumAdd(rest, x);
    }
  }

  function SumSeq(rs: seq<Refund>): int {
    if rs == [] then 0 else SumSeq(rs[..|rs| - 1]) + rs[|rs| - 1].amount.minor
  }

  lemma {:induction false} SumSeqIs(rs: seq<Refund>)
    requires Distinct(rs)
    ensures SumSeq(rs) == Sum(ToSet(rs))
  {
    if rs != [] {
      var init, last := rs[..|rs| - 1], rs[|rs| - 1];
      SumSeqIs(init);
      assert last !in init;
      assert ToSet(rs) == ToSet(init) + {last};
      SumAdd(ToSet(init), last);
    }
  }

  lemma LatestIs(t: Time, s: set<Time>)
    requires IsLatest(t, s)
    ensures Latest(s) == t
  {
  }

  /** A set of payments has as many ids as members. */
  lemma {:induction false} AsManyIds(v: View, s: set<Payment>)
    requires Injective(v.payments, PaymentId) && s <= v.payments
    ensures |set p | p in s :: p.id| == |s|
    decreases s
  {
    if s != {} {
      var p :| p in s;
      AsManyIds(v, s - {p});
      var ids := set q | q in s - {p} :: q.id;
      assert p.id !in ids by {
        forall q | q in s - {p} ensures q.id != p.id { assert PaymentId(q) != PaymentId(p); }
      }
      assert (set q | q in s :: q.id) == ids + {p.id};
    }
  }

  lemma {:induction false} ListingLength<T(!new)>(xs: seq<T>)
    requires Distinct(xs)
    ensures |xs| == |ToSet(xs)|
  {
    DistinctMultiset(xs);
    assert |multiset(xs)| == |xs|;
    assert |multiset(ToSet(xs))| == |ToSet(xs)|;
  }

  /** As many keys as entries means that no two entries share a key. */
  lemma {:induction false} CountedKeys<T(!new), K(!new)>(xs: seq<T>, key: T -> K)
    requires |Keys(xs, key)| == |xs|
    ensures Distinct(xs)
    ensures forall x, y :: x in xs && y in xs && key(x) == key(y) ==> x == y
  {
    if xs != [] {
      var init, last := xs[..|xs| - 1], xs[|xs| - 1];
      assert xs == init + [last];
      assert Keys(xs, key) == Keys(init, key) + {key(last)};
      AtMostAsMany(init, key);
      assert key(last) !in Keys(init, key);
      CountedKeys(init, key);
      forall x | x in init ensures key(x) != key(last) { assert key(x) in Keys(init, key); }
    }
  }

  lemma {:induction false} AtMostAsMany<T(!new), K(!new)>(xs: seq<T>, key: T -> K)
    ensures |Keys(xs, key)| <= |xs|
  {
    if xs != [] {
      var init, last := xs[..|xs| - 1], xs[|xs| - 1];
      assert xs == init + [last];
      assert Keys(xs, key) == Keys(init, key) + {key(last)};
      AtMostAsMany(init, key);
    }
  }

  /** Inputs that pass the checks have unambiguous identities. */
  lemma ChecksIdentify(s: Snapshot, codec: Codec)
    requires InputError(s).None?
    ensures Identified(ViewOf(s, codec))
    ensures Distinct(s.payments) && Distinct(s.orders) && Distinct(s.refunds) && Distinct(s.coverage)
  {
    CountedKeys(s.payments, PaymentId);
    CountedKeys(s.orders, OrderId);
    CountedKeys(s.coverage, CoverageSource);
    CountedKeys(s.refunds, RefundKey);
    var v := ViewOf(s, codec);
    forall a, b | a in v.refunds && b in v.refunds && a.source == b.source && a.id == b.id ensures a == b {
      assert RefundKey(a) == RefundKey(b);
    }
  }
}
