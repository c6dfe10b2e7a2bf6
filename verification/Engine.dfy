/**
 The reconciliation engine: four passes that grow `blocked`, `matched`, `claimed`, `warnings` and `proposals`
 in place. Each pass is proved to produce what the order-free specification says.
 */
module Engine {
  import opened Wrappers
  import opened Ordering
  import opened Money
  import opened Domain
  import opened EngineSpec
  import opened EngineLemmas

  /** Python's `sorted` of a set. */
  method SortSet<T(==,!new)>(s: set<T>, key: T -> string) returns (xs: seq<T>)
    requires Injective(s, key)
    ensures xs == Listing(s, key)
  {
    xs := [];
    var rest := s;
    while rest != {}
      invariant rest <= s && IsListing(xs, s - rest, key)
      decreases |rest|
    {
      var x :| x in rest;
      InsertListing(x, xs, s - rest, key);
      assert s - (rest - {x}) == (s - rest) + {x};
      xs := Insert(x, xs, key);
      rest := rest - {x};
    }
    assert s - rest == s;
    ListingIs(xs, s, key);
  }

  lemma InsertListing<T(!new)>(x: T, xs: seq<T>, s: set<T>, key: T -> string)
    requires IsListing(xs, s, key) && x !in s
    ensures IsListing(Insert(x, xs, key), s + {x}, key)
  {
    InsertKeeps(x, xs, key);
    assert forall y :: y in xs <==> y in ToSet(xs);
    DistinctMultiset(xs);
    var ys := Insert(x, xs, key);
    SameElements(ys, [x] + xs);
    assert ToSet([x] + xs) == s + {x};
    assert multiset(ys) == multiset(ToSet(ys));
    MultisetDistinct(ys);
  }

  function Lookup<K, V>(m: map<K, V>, k: K, default: V): V { if k in m then m[k] else default }

  /** Ids of the payments among `ps` that answer to a reference. */
  function Targets(ps: seq<Payment>, reference: string): set<string> {
    set p | p in ps && Answers(p, reference) :: p.id
  }

  function HintsFor(ps: seq<Payment>, storeId: string, orderId: string): set<Payment> {
    set p | p in ps && HintsAt(storeId, p, orderId)
  }

  method BuildAliases(payments: seq<Payment>) returns (aliases: map<string, set<string>>)
    ensures forall r :: Lookup(aliases, r, {}) == Targets(payments, r)
  {
    aliases := map[];
    for i := 0 to |payments|
      invariant forall r :: Lookup(aliases, r, {}) == Targets(payments[..i], r)
    {
      var p := payments[i];
      var names := [p.id] + p.chargeIds + p.sessionIds;
      for j := 0 to |names|
        invariant forall r ::
          Lookup(aliases, r, {}) == Targets(payments[..i], r) + (if r in names[..j] then {p.id} else {})
      {
        assert names[..j + 1] == names[..j] + [names[j]];
        aliases := aliases[names[j] := Lookup(aliases, names[j], {}) + {p.id}];
      }
      assert names[..|names|] == names;
      forall r
        ensures Targets(payments[..i + 1], r) == Targets(payments[..i], r) + (if r in names then {p.id} else {})
      {
        assert payments[..i + 1] == payments[..i] + [p];
        assert r in names <==> Answers(p, r);
      }
    }
    assert payments[..|payments|] == payments;
  }

  method BuildHints(payments: seq<Payment>, storeId: string) returns (hints: map<string, seq<Payment>>)
    ensures forall id :: ToSet(Lookup(hints, id, [])) == HintsFor(payments, storeId, id)
  {
    hints := map[];
    for i := 0 to |payments|
      invariant forall id :: ToSet(Lookup(hints, id, [])) == HintsFor(payments[..i], storeId, id)
    {
      var p := payments[i];
      forall id { HintStep(payments, i, storeId, id); }
      ghost var before := hints;
      if p.orderHint != "" && p.storeHint in {"", storeId} {
        hints := hints[p.orderHint := Lookup(hints, p.orderHint, []) + [p]];
      }
      forall id ensures ToSet(Lookup(hints, id, [])) == HintsFor(payments[..i + 1], storeId, id) {
        if HintsAt(storeId, p, id) {
          assert ToSet(Lookup(before, id, []) + [p]) == ToSet(Lookup(before, id, [])) + {p};
        }
      }
    }
    assert payments[..|payments|] == payments;
  }

  lemma HintStep(payments: seq<Payment>, i: nat, storeId: string, id: string)
    requires i < |payments|
    ensures HintsFor(payments[..i + 1], storeId, id)
         == HintsFor(payments[..i], storeId, id) + (if HintsAt(storeId, payments[i], id) then {payments[i]} else {})
  {
    assert payments[..i + 1] == payments[..i] + [payments[i]];
  }

  /** Claimants of a payment among some of the orders. */
  ghost function ClaimantsAmong(v: View, orders: set<Order>, id: string): set<string> {
    set o, p | o in orders && Matched(v, o) && p in Group(v, o) && p.id == id :: o.id
  }

  ghost function MismatchBlocks(v: View, orders: set<Order>): set<string> {
    set o, i | o in orders && Mismatched(v, o) && i in ConflictIds(v, o) :: i
  }

  ghost function ContestBlocks(v: View, ids: set<string>): set<string> {
    set id, i | id in ids && Contested(v, id) && i in ClaimIds(v, id) :: i
  }

  /** `matched` and `confidence` hold the groups of the matched orders, by order id. */
  ghost predicate MatchTable(v: View, orders: set<Order>, matched: map<string, seq<Payment>>,
      confidence: map<string, nat>)
  {
    && (forall o :: o in orders ==> (o.id in matched <==> Matched(v, o)))
    && (forall o :: o in orders && Matched(v, o) ==>
          o.id in confidence && matched[o.id] == Listing(Group(v, o), PaymentId)
          && confidence[o.id] == Confidence(v, o))
    && (forall id :: id in matched ==> exists o :: o in orders && o.id == id)
  }

  /** `claimed` lists, for each payment id, the orders that claim it. */
  ghost predicate ClaimTable(v: View, orders: set<Order>, claimed: map<string, seq<string>>) {
    && (forall id :: ToSet(Lookup(claimed, id, [])) == ClaimantsAmong(v, orders, id))
    && (forall id :: Distinct(Lookup(claimed, id, [])))
    && (forall id :: id in claimed ==> claimed[id] != [])
  }

  lemma TablesSkip(v: View, done: set<Order>, o: Order, matched: map<string, seq<Payment>>,
      confidence: map<string, nat>, claimed: map<string, seq<string>>)
    requires Identified(v) && done <= v.orders && o in v.orders && o !in done && !Matched(v, o)
    requires MatchTable(v, done, matched, confidence) && ClaimTable(v, done, claimed)
    ensures MatchTable(v, done + {o}, matched, confidence) && ClaimTable(v, done + {o}, claimed)
  {
    hide Matched, Group, Confidence, Listing;
    forall d | d in done ensures d.id != o.id { DistinctOrders(v, o, d); }
    forall id { ClaimStep(v, done, o, id); }
  }

  lemma TableAdd(v: View, done: set<Order>, o: Order, matched: map<string, seq<Payment>>,
      confidence: map<string, nat>)
    requires Identified(v) && done <= v.orders && o in v.orders && o !in done && Matched(v, o)
    requires MatchTable(v, done, matched, confidence)
    ensures MatchTable(v, done + {o}, matched[o.id := Listing(Group(v, o), PaymentId)],
      confidence[o.id := Confidence(v, o)])
  {
    hide Matched, Group, Confidence, Listing;
    forall d | d in done ensures d.id != o.id { DistinctOrders(v, o, d); }
  }

  lemma EnabledIs(v: View, rule: Rule)
    ensures rule in EnabledRules(v.base.policy) <==> Enabled(v, rule)
  {
  }

  class Reconciliation {
    const s: Snapshot
    const codec: Codec
    const evidence: seq<Coverage>
    const through: Time
    ghost const v: View

    var blocked: set<string>
    var warnings: set<string>
    var proposals: seq<Proposal>
    var matched: map<string, seq<Payment>>
    var confidence: map<string, nat>
    var claimed: map<string, seq<string>>

    ghost predicate Valid() {
      && v == ViewOf(s, codec) && Identified(v)
      && Distinct(s.payments) && Distinct(s.orders) && Distinct(s.refunds)
      && evidence == Listing(v.coverage, CoverageSource)
      && through == Through(v)
    }

    /** The matching tables agree with the specification on `orders`. */
    ghost predicate MatchedUp(orders: set<Order>)
      reads this`matched, this`confidence, this`claimed
    {
      && MatchTable(v, orders, matched, confidence)
      && ClaimTable(v, orders, claimed)
    }

    constructor (s: Snapshot, codec: Codec, evidence: seq<Coverage>, through: Time)
      requires var v := ViewOf(s, codec);
        && Identified(v) && Distinct(s.payments) && Distinct(s.orders) && Distinct(s.refunds)
        && evidence == Listing(v.coverage, CoverageSource) && through == Through(v)
      ensures Valid() && this.s == s && this.codec == codec
      ensures blocked == {} && warnings == {} && proposals == [] && MatchedUp({})
    {
      this.s, this.codec, this.evidence, this.through := s, codec, evidence, through;
      v := ViewOf(s, codec);
      blocked, warnings, proposals := {}, {}, [];
      matched, confidence, claimed := map[], map[], map[];
    }

    method Emit(rule: Rule, ids: set<string>, risk: Option<Money>, confidence: nat, eligible: Time, facts: Facts)
      requires Valid()
      modifies this`proposals
      ensures proposals == old(proposals) + When(v, true, Make(v, rule, ids, risk, confidence, eligible, facts))
    {
      EnabledIs(v, rule);
      hide EnabledRules, Enabled, Filter, Listing;
      if rule !in EnabledRules(s.policy) {
        return;
      }
      var identities := SortSet(ids, Self);
      var key := codec.key(KeyMaterial(s.organizationId, s.storeId, s.mode, rule, identities));
      var entry := Proposal(key, rule, Severity(rule), identities, risk, confidence, eligible, s.now >= eligible,
        Evidence(s.policy.version, evidence, facts));
      proposals := proposals + [entry];
    }

    // ----- pass 1: exact identifiers and hints -----

    method ResolveReferences(refs: seq<string>, aliases: map<string, set<string>>, ghost o: Order)
        returns (resolved: set<string>, unknown: seq<string>)
      requires Valid() && refs == Listing(References(o), Self)
      requires forall r :: Lookup(aliases, r, {}) == Targets(s.payments, r)
      ensures resolved == Resolved(v, o) && unknown == Listing(Unresolved(v, o), Self)
    {
      resolved, unknown := {}, [];
      for i := 0 to |refs|
        invariant resolved == set p, r | p in v.payments && r in refs[..i] && Answers(p, r) :: p.id
        invariant Sorted(unknown, Self) && Distinct(unknown)
        invariant forall r :: r in unknown <==> r in refs[..i] && Targets(s.payments, r) == {}
      {
        var found := Lookup(aliases, refs[i], {});
        assert refs[..i + 1] == refs[..i] + [refs[i]];
        assert refs[i] !in refs[..i];
        forall k | 0 <= k < |unknown| ensures Leq(unknown[k], refs[i]) && unknown[k] != refs[i] {
          assert unknown[k] in unknown && unknown[k] in refs[..i];
          var m :| 0 <= m < i && refs[..i][m] == unknown[k];
          assert Leq(Self(refs[m]), Self(refs[i]));
        }
        if found == {} {
          unknown := unknown + [refs[i]];
        }
        resolved := resolved + found;
      }
      assert refs[..|refs|] == refs;
      assert forall r :: r in refs <==> r in ToSet(refs);
      forall r ensures Targets(s.payments, r) == {} <==> !exists p :: p in v.payments && Answers(p, r) {
        assert forall p :: p in s.payments && Answers(p, r) ==> p.id in Targets(s.payments, r);
      }
      assert ToSet(unknown) == Unresolved(v, o);
      ListingIs(unknown, Unresolved(v, o), Self);
    }

    /** Whether the identifiers of an order contradict each other or the payments they resolve to. */
    method FindsConflict(o: Order, resolved: set<string>, unknown: seq<string>, hints: seq<Payment>)
        returns (conflict: bool)
      requires Valid() && resolved == Resolved(v, o) && unknown == Listing(Unresolved(v, o), Self)
      requires ToSet(hints) == Hinting(v, o)
      ensures conflict == Conflicting(v, o)
    {
      ListingEmpty(Unresolved(v, o), Self);
      assert hints != [] <==> Hinting(v, o) != {} by { if hints != [] { assert hints[0] in ToSet(hints); } }
      conflict := |resolved| > 1 || unknown != [] || (o.id in s.ambiguousOrderHints && hints != []);
      var contradicted := exists p :: p in s.payments && p.id in resolved && Contradicts(s.storeId, p, o.id);
      conflict := conflict || contradicted;
    }

    method RateConfidence(o: Order, refs: seq<string>, group: seq<Payment>) returns (c: nat)
      requires Valid() && refs == Listing(References(o), Self) && group == Listing(Group(v, o), PaymentId)
      ensures c == Confidence(v, o)
    {
      ListingEmpty(References(o), Self);
      ListingEmpty(Group(v, o), PaymentId);
      if refs != [] {
        assert refs[0] in refs;
        c := if exists r :: r in refs && "pi_" <= r then 100 else 95;
      } else if group != [] {
        assert group[0] in group;
        c := if forall p :: p in group ==> p.storeHint == s.storeId then 90 else 80;
      } else {
        c := 0;
      }
    }

    /** Records that an order claims each payment of its group. */
    method ClaimGroup(o: Order, group: seq<Payment>, ghost done: set<Order>)
      requires Valid() && MatchedUp(done) && o in v.orders && o !in done && done <= v.orders
      requires Matched(v, o) && group == Listing(Group(v, o), PaymentId)
      modifies this`claimed
      ensures ClaimTable(v, done + {o}, claimed)
    {
      hide Matched, Group, Listing, ClaimantsAmong, Identified;
      assert Ids(group[..0]) == {};
      ghost var before := claimed;
      forall id ensures o.id !in Lookup(before, id, []) { NotYetClaimed(o, done, id); }
      for i := 0 to |group|
        invariant forall id :: id in claimed ==> claimed[id] != []
        invariant forall id :: Lookup(claimed, id, []) == Claim(before, Ids(group[..i]), id, o.id)
      {
        IdsGrow(v, o, group, i);
        ghost var now, next := Ids(group[..i]), Ids(group[..i + 1]);
        ghost var prior := claimed;
        claimed := claimed[group[i].id := Lookup(claimed, group[i].id, []) + [o.id]];
        forall id ensures Lookup(claimed, id, []) == Claim(before, next, id, o.id) {
          assert Lookup(prior, id, []) == Claim(before, now, id, o.id);
        }
      }
      forall id
        ensures ToSet(Lookup(claimed, id, [])) == ClaimantsAmong(v, done + {o}, id)
        ensures Distinct(Lookup(claimed, id, []))
      {
        assert o.id !in Lookup(before, id, []);
        ClaimStep(v, done, o, id);
        ClaimAdds(v, o, before, group, id);
      }
    }

    lemma NotYetClaimed(o: Order, done: set<Order>, id: string)
      requires Valid() && MatchedUp(done) && o in v.orders && o !in done && done <= v.orders
      ensures o.id !in Lookup(claimed, id, [])
    {
      forall d | d in done ensures d.id != o.id { assert OrderId(d) != OrderId(o); }
      assert o.id !in ClaimantsAmong(v, done, id);
      assert o.id !in ToSet(Lookup(claimed, id, []));
    }

    /** One order of the matching pass. */
    method MatchOrder(o: Order, aliases: map<string, set<string>>, hints: map<string, seq<Payment>>,
        ghost done: set<Order>)
      requires Valid() && MatchedUp(done) && o in v.orders && o !in done && done <= v.orders
      requires forall r :: Lookup(aliases, r, {}) == Targets(s.payments, r)
      requires forall id :: ToSet(Lookup(hints, id, [])) == HintsFor(s.payments, s.storeId, id)
      modifies this`blocked, this`proposals, this`matched, this`confidence, this`claimed
      ensures MatchedUp(done + {o})
      ensures blocked == old(blocked) + (if Mismatched(v, o) then ConflictIds(v, o) else {})
      ensures proposals == old(proposals) + When(v, Mismatched(v, o), ConflictProposal(v, o))
    {
      hide Conflicting, Group, Confidence, Make, Listing, HintsFor, Targets, MatchTable, ClaimTable, Injective;
      if !Matched(v, o) { TablesSkip(v, done, o, matched, confidence, claimed); }
      if !IsStripe(o) {
        return;
      }
      SelfInjective(References(o));
      var refs := SortSet(References(o), Self);
      var resolved, unknown := ResolveReferences(refs, aliases, o);
      var hinting := Lookup(hints, o.id, []);
      HintingIs(s, codec, o);
      var conflict := FindsConflict(o, resolved, unknown, hinting);
      if conflict {
        var ids := {OrderTag(o.id)} + set id | id in resolved :: PaymentTag(id);
        blocked := blocked + ids;
        Emit(PI010, ids, Some(o.amount), 100, s.now, UnresolvedIdentifiers(o, refs, unknown));
        return;
      }
      var candidates := set p | p in s.payments && (p.id in resolved || p in hinting);
      GroupIs(v, o, resolved, hinting, candidates);
      PaymentsApart(v, candidates);
      var group := SortSet(candidates, PaymentId);
      var c := RateConfidence(o, refs, group);
      TableAdd(v, done, o, matched, confidence);
      ClaimGroup(o, group, done);
      confidence := confidence[o.id := c];
      matched := matched[o.id := group];
    }

    method MatchPass()
      requires Valid() && MatchedUp({}) && blocked == {} && proposals == []
      modifies this`blocked, this`proposals, this`matched, this`confidence, this`claimed
      ensures MatchedUp(v.orders) && blocked == MismatchBlocks(v, v.orders)
      ensures proposals == ConflictEmissions(v, Listing(v.orders, OrderId))
    {
      hide Valid, MatchedUp, ConflictProposal, Mismatched, ConflictIds, Targets, HintsFor, Listing, SortBy, Identified,
        MismatchBlocks, ConflictEmissions, When;
      ViewIsOfSnapshot();
      var aliases := BuildAliases(s.payments);
      var hints := BuildHints(s.payments, s.storeId);
      var orders := SortBy(s.orders, OrderId);
      SortedInputs();
      NoMismatch(v, orders);
      for k := 0 to |orders|
        invariant MatchedUp(ToSet(orders[..k])) && blocked == MismatchBlocks(v, ToSet(orders[..k]))
        invariant proposals == ConflictEmissions(v, orders[..k])
      {
        NextOrder(v, orders, k);
        MatchOrder(orders[k], aliases, hints, ToSet(orders[..k]));
        MismatchStep(v, ToSet(orders[..k]), orders[k]);
        ConflictStep(v, orders, k);
      }
      assert orders[..|orders|] == orders && ToSet(orders) == v.orders;
    }

    // ----- pass 2: payments claimed by several orders -----

    method ClaimPass(payments: map<string, Payment>)
      requires Valid() && MatchedUp(v.orders) && blocked == MismatchBlocks(v, v.orders)
      requires forall p :: p in v.payments ==> p.id in payments && payments[p.id] == p
      modifies this`blocked, this`proposals
      ensures blocked == BlockedByMatching(v)
      ensures proposals == old(proposals) + ClaimEmissions(v, Listing(Claimed(v), Self))
    {
      hide Valid, MatchedUp, Contested, Listing, Claimants, ClaimIds, MismatchBlocks, ClaimProposal, Claimed,
        ContestBlocks, ClaimEmissions, Injective, When, BlockedByMatching;
      KeysAreClaimed();
      SelfInjective(claimed.Keys);
      var ids := SortSet(claimed.Keys, Self);
      NoClaims(v, ids);
      for k := 0 to |ids|
        invariant MatchedUp(v.orders)
        invariant blocked == MismatchBlocks(v, v.orders) + ContestBlocks(v, ToSet(ids[..k]))
        invariant proposals == old(proposals) + ClaimEmissions(v, ids[..k])
      {
        NextClaim(v, ids, k);
        BlockContested(ids[k], payments);
      }
      MatchingBlocks(v, ids);
    }

    lemma KeysAreClaimed()
      requires MatchedUp(v.orders)
      ensures claimed.Keys == Claimed(v)
    {
      ClaimKeys(v, claimed);
    }

    method BlockContested(id: string, payments: map<string, Payment>)
      requires Valid() && MatchedUp(v.orders) && id in claimed && Known(v, id)
      requires forall p :: p in v.payments ==> p.id in payments && payments[p.id] == p
      modifies this`blocked, this`proposals
      ensures blocked == old(blocked) + (if Contested(v, id) then ClaimIds(v, id) else {})
      ensures proposals == old(proposals) + When(v, Contested(v, id), ClaimProposal(v, id))
    {
      hide MatchTable, Contested, Make, Listing, Claimants, ClaimIds, ClaimTable;
      ClaimantList(v, claimed, id);
      if |claimed[id]| > 1 {
        var tags := (set oid | oid in claimed[id] :: OrderTag(oid)) + {PaymentTag(id)};
        blocked := blocked + tags;
        KnownPayment(v, payments, id);
        Emit(PI010, tags, Some(payments[id].received), 100, s.now, ClaimedTwice(id, SortBy(claimed[id], Self)));
      }
    }

    // ----- pass 3: one matched order at a time -----

    /** Succeeded payments whose whole receipt has been returned and has settled. */
    method FindCompensated(o: Order, succeeded: seq<Payment>) returns (compensated: set<string>)
      requires Valid() && succeeded == Listing(Receipts(v, o), PaymentId)
      ensures compensated == Compensated(v, o)
    {
      hide Listing, Receipts, Identified, Valid, Returned, FullyReturned;
      ViewIsOfSnapshot();
      compensated := {};
      for i := 0 to |succeeded|
        invariant compensated == set p | p in succeeded[..i] && Returned(v, p) :: p.id
      {
        var p := succeeded[i];
        assert succeeded[..i + 1] == succeeded[..i] + [p];
        var refunds := Filter(s.refunds, (r: Refund) => Returns(r, p));
        ReturnedIs(v, s.refunds, p);
        if FullyReturned(refunds, p, s.policy.refundGrace, Min(s.now, through)) {
          compensated := compensated + {p.id};
        }
      }
      assert succeeded[..|succeeded|] == succeeded;
      ListingEmpty(Receipts(v, o), PaymentId);
    }

    method EmitPairs(o: Order, succeeded: seq<Payment>, c: nat, facts: Facts)
      requires Valid() && c == Confidence(v, o) && facts == BaseFacts(v, o)
      modifies this`proposals
      ensures proposals == old(proposals) + PairEmissions(v, o, succeeded)
    {
      hide Make, Confidence, BaseFacts;
      for i := 0 to |succeeded|
        invariant proposals == old(proposals) + PairEmissions(v, o, succeeded[..i])
      {
        var p := succeeded[i];
        assert succeeded[..i + 1][..i] == succeeded[..i];
        var eligible := Eligible(s.policy, p);
        var pair := {OrderTag(o.id), PaymentTag(p.id)};
        if o.status in UNPAID {
          Emit(PI001, pair, Some(p.received), c, eligible, facts);
        }
        if p.received != o.amount {
          Emit(PI005, pair, Some(p.received), c, eligible, facts);
        }
      }
      assert succeeded[..|succeeded|] == succeeded;
    }

    method EmitDuplicate(o: Order, ids: set<string>, succeeded: seq<Payment>, corrected: bool, c: nat, facts: Facts)
      requires Valid() && succeeded == Listing(Receipts(v, o), PaymentId) && ids == GroupIds(v, o)
      requires corrected == Corrected(v, o) && c == Confidence(v, o) && facts == BaseFacts(v, o)
      modifies this`proposals
      ensures proposals == old(proposals)
        + When(v, |Receipts(v, o)| > 1 && !Corrected(v, o), DuplicateProposal(v, o))
    {
      hide Make, Confidence, BaseFacts, Corrected, Receipts, Listing, GroupIds, Valid;
      ListingEmpty(Receipts(v, o), PaymentId);
      ListingSize(Receipts(v, o), PaymentId);
      ViewIsOfSnapshot();
      if |succeeded| > 1 && !corrected {
        var eligible := LatestEligible(s.policy, succeeded);
        ghost var all := set p | p in Receipts(v, o) :: Eligible(v.base.policy, p);
        assert all == set p | p in succeeded :: Eligible(s.policy, p);
        LatestIs(eligible, all);
        Emit(PI004, ids, Some(o.amount), c, eligible, facts);
      }
    }

    method EmitMissing(o: Order, none: bool, c: nat, facts: Facts)
      requires Valid() && none == (Receipts(v, o) == {})
      requires c == Confidence(v, o) && facts == BaseFacts(v, o)
      modifies this`proposals
      ensures proposals == old(proposals)
        + When(v, Receipts(v, o) == {} && o.status in PAID, MissingProposal(v, o))
    {
      hide Make, Confidence, BaseFacts, Receipts, Listing, Valid;
      ViewIsOfSnapshot();
      if none && o.status in PAID {
        var candidates := set p | p in s.payments && Resembles(p, o) :: p.id;
        assert candidates == set p | p in v.payments && Resembles(p, o) :: p.id;
        SelfInjective(candidates);
        var listed := SortSet(candidates, Self);
        Emit(PI003, {OrderTag(o.id)}, Some(o.amount), c, o.paidAt.GetOr(o.changedAt) + s.policy.instantGrace,
          MissingPayment(facts, listed, if listed != [] then 40 else 0));
      }
    }

    method EmitPayments(o: Order, ids: set<string>, succeeded: seq<Payment>, corrected: bool, c: nat, facts: Facts)
      requires Valid() && succeeded == Listing(Receipts(v, o), PaymentId) && ids == GroupIds(v, o)
      requires corrected == Corrected(v, o) && c == Confidence(v, o) && facts == BaseFacts(v, o)
      modifies this`proposals
      ensures proposals == old(proposals) + PaymentEmissions(v, o)
    {
      hide DuplicateProposal, MissingProposal, Confidence, BaseFacts, Corrected, Receipts, Listing, GroupIds, When,
        Valid,
        PairEmissions;
      ListingEmpty(Receipts(v, o), PaymentId);
      EmitDuplicate(o, ids, succeeded, corrected, c, facts);
      EmitMissing(o, succeeded == [], c, facts);
      EmitPairs(o, succeeded, c, facts);
    }

    // ----- refunds of one order -----

    method ListRefunds(o: Order, group: seq<Payment>, compensated: set<string>, corrected: bool)
        returns (stripe: seq<Refund>, woo: seq<Refund>)
      requires Valid() && group == Listing(Group(v, o), PaymentId)
      requires compensated == Compensated(v, o) && corrected == Corrected(v, o)
      ensures stripe == Listing(StripeRefunds(v, o), RefundId) && woo == Listing(WooRefunds(v, o), RefundId)
    {
      hide Valid, Listing, Group, Compensated, Corrected;
      ViewIsOfSnapshot();
      var ids := set p | p in group :: p.id;
      stripe := SortBy(CountedRefunds(s.refunds, ids, compensated, corrected), RefundId);
      woo := SortBy(RecordedRefunds(s.refunds, o.id), RefundId);
      StripeListed(v, o, s.refunds, ids, compensated, corrected);
      WooListed(v, o, s.refunds);
    }

    /** The last checks on an order whose payments have settled, and the comparison of its refunds. */
    method SettleRefunds(o: Order, succeeded: seq<Payment>, stripe: seq<Refund>, woo: seq<Refund>, c: nat,
        facts: Facts) returns (overflow: bool)
      requires Valid() && succeeded == Listing(Receipts(v, o), PaymentId) && !Held(v, o)
      requires stripe == Listing(StripeRefunds(v, o), RefundId) && woo == Listing(WooRefunds(v, o), RefundId)
      requires c == Confidence(v, o) && facts == BaseFacts(v, o)
      modifies this`blocked, this`warnings, this`proposals
      ensures blocked == old(blocked) + OrderBlocks(v, o)
      ensures warnings == old(warnings) + OrderWarnings(v, o)
      ensures overflow <==> StageOf(v, o) == Judged && Difference(v, o).minor > MAX_MINOR
      ensures !overflow ==> proposals == old(proposals) + SettledEmissions(v, o)
    {
      hide Valid, Listing, Sum, Through, BaseFacts, Confidence, StripeRefunds, WooRefunds, Receipts,
        MixedCurrencyProposal,
        RefundEmissions, When, StageOf, OrderRefunds, PaysBackTooMuch;
      ViewIsOfSnapshot();
      StageSettled(v, o, succeeded, stripe, woo);
      var all := stripe + woo;
      overflow := false;
      if exists r :: r in all && r.changedAt > through {
        blocked := blocked + {OrderTag(o.id)};
        return;
      }
      if exists r :: r in all && !SameUnit(r.amount, o.amount) {
        warnings := warnings + {"refund_currency_conflict:" + o.id};
        EmitMixedCurrency(o, all, c, facts);
        return;
      }
      if o.refunded.minor > o.amount.minor || PaysBackTooMuch(succeeded, stripe) {
        warnings := warnings + {"refund_exceeds_payment:" + o.id};
        blocked := blocked + {OrderTag(o.id)};
        return;
      }
      if woo != [] && SumSeq(woo) != o.refunded.minor {
        warnings := warnings + {"woo_refund_projection_inconsistent:" + o.id};
        blocked := blocked + {OrderTag(o.id)};
        return;
      }
      overflow := CompareRefunds(o, stripe, woo, c, facts);
    }

    method EmitMixedCurrency(o: Order, all: seq<Refund>, c: nat, facts: Facts)
      requires Valid() && forall r :: r in all <==> r in OrderRefunds(v, o)
      requires c == Confidence(v, o) && facts == BaseFacts(v, o)
      modifies this`proposals
      ensures proposals == old(proposals) + When(v, true, MixedCurrencyProposal(v, o))
    {
      hide Valid, OrderRefunds, Make, BaseFacts, Confidence, Latest;
      ViewIsOfSnapshot();
      var t := LatestChange(o.changedAt, all);
      LatestOfRefunds(v, o, o.changedAt, all, t);
      Emit(PI008, {OrderTag(o.id)}, Some(o.refunded), c, t + s.policy.refundGrace, RefundCurrencyConflict(facts));
    }

    method CompareRefunds(o: Order, stripe: seq<Refund>, woo: seq<Refund>, c: nat, facts: Facts)
        returns (overflow: bool)
      requires Valid()
      requires stripe == Listing(StripeRefunds(v, o), RefundId) && woo == Listing(WooRefunds(v, o), RefundId)
      requires c == Confidence(v, o) && facts == BaseFacts(v, o)
      modifies this`proposals
      ensures overflow <==> Difference(v, o).minor > MAX_MINOR
      ensures !overflow ==> proposals == old(proposals) + RefundEmissions(v, o)
    {
      hide Valid, Listing, Sum, Make, BaseFacts, Confidence, StripeRefunds, WooRefunds, Latest, IsLatest,
        RefundProposal, When;
      ViewIsOfSnapshot();
      RefundSums(v, o);
      ListingEmpty(StripeRefunds(v, o), RefundId);
      ListingEmpty(WooRefunds(v, o), RefundId);
      var sr, wr := SumSeq(stripe), o.refunded.minor;
      var returned := RefundFacts(facts, stripe, woo, sr, wr, o.status == "refunded");
      var anchor := if wr != 0 || o.status == "refunded" then o.changedAt else s.windowFrom;
      var t := LatestChange(anchor, stripe + woo);
      LatestOfRefunds(v, o, anchor, stripe + woo, t);
      var eligible := t + s.policy.refundGrace;
      RefundProposalIs(v, o, anchor, t);
      NothingEmitted(v, RefundProposal(v, o, PI008, Difference(v, o)));
      var risk := Money(Abs(sr - wr), o.amount.currency, o.amount.exponent);
      overflow := risk.minor > MAX_MINOR;
      if overflow {
        return;
      }
      if sr != 0 && wr == 0 {
        Emit(PI006, {OrderTag(o.id)}, Some(risk), c, eligible, returned);
      } else if (wr != 0 || o.status == "refunded") && sr == 0 {
        Emit(PI007, {OrderTag(o.id)}, Some(if wr != 0 then risk else o.amount), c, eligible, returned);
      } else if sr != wr {
        Emit(PI008, {OrderTag(o.id)}, Some(risk), c, eligible, returned);
      }
    }

    // ----- the per-order pass -----

    /** A matched order that is not held back: its payments, then its refunds. */
    method ReportOrder(o: Order, ids: set<string>, group: seq<Payment>, c: nat) returns (overflow: bool)
      requires Valid() && !Held(v, o) && ids == GroupIds(v, o)
      requires group == Listing(Group(v, o), PaymentId) && c == Confidence(v, o)
      modifies this`blocked, this`warnings, this`proposals
      ensures blocked == old(blocked) + OrderBlocks(v, o)
      ensures warnings == old(warnings) + OrderWarnings(v, o)
      ensures overflow <==> StageOf(v, o) == Judged && Difference(v, o).minor > MAX_MINOR
      ensures !overflow ==> proposals == old(proposals) + OrderEmissions(v, o)
    {
      hide Valid, Listing, OrderBlocks, OrderWarnings, StageOf, Difference, PaymentEmissions, SettledEmissions,
        Group, GroupIds, Confidence, Compensated, Receipts, Identified, IsListing, Injective;
      ViewIsOfSnapshot();
      ReceiptsListed(v, o);
      var succeeded := Filter(group, Succeeded);
      var compensated := FindCompensated(o, succeeded);
      ListingSize(Receipts(v, o), PaymentId);
      var corrected := |succeeded| > 1 && |succeeded| - |compensated| == 1;
      SelfInjective(compensated);
      var returned := SortSet(compensated, Self);
      var facts := OrderFacts(o, group, if corrected then returned else []);
      var stripe, woo := ListRefunds(o, group, compensated, corrected);
      EmitPayments(o, ids, succeeded, corrected, c, facts);
      overflow := SettleRefunds(o, succeeded, stripe, woo, c, facts);
    }

    method ExamineOrder(o: Order, ghost done: set<Order>) returns (overflow: bool)
      requires Valid() && MatchedUp(v.orders) && o in v.orders && o !in done && done <= v.orders
      requires blocked == BlockedByMatching(v) + BlockedByOrders(v, done)
      modifies this`blocked, this`warnings, this`proposals
      ensures blocked == old(blocked) + (if Examined(v, o) then OrderBlocks(v, o) else {})
      ensures warnings == old(warnings) + (if Examined(v, o) then OrderWarnings(v, o) else {})
      ensures overflow <==> Overflows(v, o)
      ensures !overflow ==> proposals == old(proposals) + (if Examined(v, o) then OrderEmissions(v, o) else [])
    {
      hide Valid, Listing, Matched, Group, Confidence, BlockedByMatching, BlockedByOrders, Through, Difference,
        OrderRefunds, WooRefunds, StripeRefunds, Sum, Receipts, PaymentEmissions, SettledEmissions, Identified;
      ViewIsOfSnapshot();
      GrowthIrrelevant(v, done, o);
      overflow := false;
      if o.id !in matched || OrderTag(o.id) in blocked {
        return;
      }
      var group := matched[o.id];
      ListingEmpty(Group(v, o), PaymentId);
      var ids := {OrderTag(o.id)} + set p | p in group :: PaymentTag(p.id);
      assert ids == GroupIds(v, o);
      if o.createdAt < s.windowFrom {
        blocked := blocked + ids;
        warnings := warnings + {"history_outside_coverage:" + OrderTag(o.id)};
        return;
      }
      if exists i :: i in ids && i in blocked {
        blocked := blocked + ids;
        return;
      }
      if o.changedAt > through || exists p :: p in group && p.changedAt > through {
        blocked := blocked + ids;
        return;
      }
      assert !Held(v, o);
      overflow := ReportOrder(o, ids, group, confidence[o.id]);
    }

    /** Examines every order in id order; an amount out of range ends the evaluation. */
    method OrderPass() returns (overflow: bool)
      requires Valid() && MatchedUp(v.orders) && blocked == BlockedByMatching(v) && warnings == {}
      modifies this`blocked, this`warnings, this`proposals
      ensures overflow <==> exists o :: o in v.orders && Overflows(v, o)
      ensures !overflow ==> blocked == BlockedByMatching(v) + BlockedByOrders(v, v.orders)
      ensures !overflow ==> warnings == OrdersWarn(v, v.orders)
      ensures !overflow ==> proposals == old(proposals) + ExaminedEmissions(v, Listing(v.orders, OrderId))
    {
      hide Valid, MatchedUp, Overflows, BlockedByMatching, BlockedByOrders, OrdersWarn, OrderBlocks, OrderWarnings,
        OrderEmissions, Examined, Identified, Listing, SortBy;
      ViewIsOfSnapshot();
      SortedInputs();
      var orders := SortBy(s.orders, OrderId);
      NoOrders(v, orders);
      for k := 0 to |orders|
        invariant MatchedUp(v.orders)
        invariant forall j :: 0 <= j < k ==> !Overflows(v, orders[j])
        invariant blocked == BlockedByMatching(v) + BlockedByOrders(v, ToSet(orders[..k]))
        invariant warnings == OrdersWarn(v, ToSet(orders[..k]))
        invariant proposals == old(proposals) + ExaminedEmissions(v, orders[..k])
      {
        NextOrder(v, orders, k);
        OrderStep(v, ToSet(orders[..k]), orders[k]);
        overflow := ExamineOrder(orders[k], ToSet(orders[..k]));
        if overflow {
          return;
        }
      }
      overflow := false;
      assert orders[..|orders|] == orders;
      ListingEmpty(v.orders, OrderId);
    }

    // ----- pass 4: payments no order claims -----

    method PaymentPass()
      requires Valid() && MatchedUp(v.orders)
      requires blocked == BlockedByMatching(v) + BlockedByOrders(v, v.orders) && warnings == OrdersWarn(v, v.orders)
      modifies this`blocked, this`warnings, this`proposals
      ensures blocked == Blocked(v) && warnings == Warnings(v)
      ensures proposals == old(proposals) + UnclaimedEmissions(v, Listing(v.payments, PaymentId))
    {
      hide Valid, MatchedUp, BlockedByMatching, BlockedByOrders, OrdersWarn, BlockedLoose, LooseWarn, Identified,
        Claimed, LooseEmissions, LooseBlocks, LooseWarnings, UnclaimedEmissions, Listing, SortBy, Injective, ToSet;
      ViewIsOfSnapshot();
      SortedInputs();
      KeysAreClaimed();
      var payments := SortBy(s.payments, PaymentId);
      NoPayments(v, payments);
      for k := 0 to |payments|
        invariant MatchedUp(v.orders)
        invariant blocked == BlockedByMatching(v) + BlockedByOrders(v, v.orders) + BlockedLoose(v, ToSet(payments[..k]))
        invariant warnings == OrdersWarn(v, v.orders) + LooseWarn(v, ToSet(payments[..k]))
        invariant proposals == old(proposals) + UnclaimedEmissions(v, payments[..k])
      {
        NextPayment(v, payments, k);
        PaymentStep(v, ToSet(payments[..k]), payments[k]);
        ExaminePayment(payments[k], ToSet(payments[..k]));
      }
      assert payments[..|payments|] == payments && ToSet(payments) == v.payments;
    }

    method ExaminePayment(p: Payment, ghost done: set<Payment>)
      requires Valid() && MatchedUp(v.orders) && p in v.payments && done <= v.payments && p !in done
      requires blocked == BlockedByMatching(v) + BlockedByOrders(v, v.orders) + BlockedLoose(v, done)
      modifies this`blocked, this`warnings, this`proposals
      ensures blocked == old(blocked) + LooseBlocks(v, p)
      ensures warnings == old(warnings) + LooseWarnings(v, p)
      ensures proposals == old(proposals) + LooseEmissions(v, p)
    {
      hide Valid, MatchedUp, BlockedByMatching, BlockedByOrders, BlockedLoose, Claimed, Through, Identified, Make;
      ViewIsOfSnapshot();
      KeysAreClaimed();
      if p.id !in Claimed(v) { UnclaimedUntouched(v, done, p); }
      var tag := PaymentTag(p.id);
      if p.id in claimed || tag in blocked || !Succeeded(p) {
        return;
      }
      if p.changedAt > through || p.createdAt < s.windowFrom {
        blocked := blocked + {tag};
      } else if p.storeHint == s.storeId {
        Emit(PI002, {tag}, Some(p.received), 90, Eligible(s.policy, p), UnmatchedPayment(p, s.storeId));
      } else {
        warnings := warnings + {"unattributed_payment:" + p.id};
      }
    }

    lemma SortedInputs()
      requires Valid()
      ensures SortBy(s.orders, OrderId) == Listing(v.orders, OrderId)
      ensures SortBy(s.payments, PaymentId) == Listing(v.payments, PaymentId)
    {
      SortByIsListing(s.orders, OrderId);
      ListingIs(SortBy(s.orders, OrderId), v.orders, OrderId);
      SortByIsListing(s.payments, PaymentId);
      ListingIs(SortBy(s.payments, PaymentId), v.payments, PaymentId);
    }

    lemma ViewIsOfSnapshot()
      requires Valid()
      ensures v.base.policy == s.policy && v.base.storeId == s.storeId && v.base.now == s.now
      ensures v.base.windowFrom == s.windowFrom && through == Through(v)
      ensures v.payments == ToSet(s.payments) && v.orders == ToSet(s.orders) && v.refunds == ToSet(s.refunds)
      ensures Distinct(s.refunds) && Identified(v)
    {
    }
  }

  /** The refunds return the payment's whole receipt, in its own unit, and settled before `limit`. */
  predicate FullyReturned(refunds: seq<Refund>, p: Payment, grace: int, limit: Time) {
    && refunds != [] && p.received.minor > 0
    && (forall r :: r in refunds ==> SameUnit(r.amount, p.received))
    && SumSeq(refunds) == p.received.minor
    && (forall r :: r in refunds ==> r.changedAt + grace <= limit)
  }

  lemma ReturnedIs(v: View, refunds: seq<Refund>, p: Payment)
    requires Distinct(refunds) && v.refunds == ToSet(refunds)
    ensures FullyReturned(Filter(refunds, (r: Refund) => Returns(r, p)), p, v.base.policy.refundGrace,
        Min(v.base.now, Through(v)))
      == Returned(v, p)
  {
    hide Through;
    RefundsListed(v, refunds, p);
  }

  lemma RefundsListed(v: View, refunds: seq<Refund>, p: Payment)
    requires Distinct(refunds) && v.refunds == ToSet(refunds)
    ensures var listed := Filter(refunds, (r: Refund) => Returns(r, p));
      && (listed == [] <==> RefundsOf(v, p) == {})
      && (forall r :: r in listed <==> r in RefundsOf(v, p))
      && SumSeq(listed) == Sum(RefundsOf(v, p))
  {
    var keep := (r: Refund) => Returns(r, p);
    var listed := Filter(refunds, keep);
    FilterDistinct(refunds, keep);
    assert ToSet(listed) == RefundsOf(v, p);
    SumSeqIs(listed);
    if listed != [] {
      assert listed[0] in ToSet(listed);
    }
  }

  /** A succeeded Stripe refund of the group that does not reverse a duplicate. */
  predicate Counts(r: Refund, ids: set<string>, compensated: set<string>, corrected: bool) {
    r.source == Stripe && r.parentId in ids && r.status == "succeeded" && !(corrected && r.parentId in compensated)
  }

  function CountedRefunds(refunds: seq<Refund>, ids: set<string>, compensated: set<string>, corrected: bool)
      : seq<Refund>
  {
    Filter(refunds, (r: Refund) => Counts(r, ids, compensated, corrected))
  }

  function RecordedRefunds(refunds: seq<Refund>, orderId: string): seq<Refund> {
    Filter(refunds, (r: Refund) => r.source == Woo && r.parentId == orderId)
  }

  lemma StripeListed(v: View, o: Order, refunds: seq<Refund>, ids: set<string>, compensated: set<string>,
      corrected: bool)
    requires Identified(v) && Distinct(refunds) && v.refunds == ToSet(refunds)
    requires ids == set p | p in Listing(Group(v, o), PaymentId) :: p.id
    requires compensated == Compensated(v, o) && corrected == Corrected(v, o)
    ensures SortBy(CountedRefunds(refunds, ids, compensated, corrected), RefundId)
         == Listing(StripeRefunds(v, o), RefundId)
  {
    hide Listing, Group, Compensated, Corrected;
    ListingEmpty(Group(v, o), PaymentId);
    var kept := StripeRefunds(v, o);
    forall r ensures r in kept <==> r in refunds && Counts(r, ids, compensated, corrected) {
      if r in refunds && Counts(r, ids, compensated, corrected) {
        var p :| p in Group(v, o) && p.id == r.parentId;
        assert Returns(r, p);
      }
    }
    SortFilterIs(refunds, (r: Refund) => Counts(r, ids, compensated, corrected), RefundId, kept);
  }

  lemma WooListed(v: View, o: Order, refunds: seq<Refund>)
    requires Identified(v) && Distinct(refunds) && v.refunds == ToSet(refunds)
    ensures SortBy(RecordedRefunds(refunds, o.id), RefundId) == Listing(WooRefunds(v, o), RefundId)
  {
    SortFilterIs(refunds, (r: Refund) => r.source == Woo && r.parentId == o.id, RefundId, WooRefunds(v, o));
  }

  lemma RefundSums(v: View, o: Order)
    ensures SumSeq(Listing(StripeRefunds(v, o), RefundId)) == Sum(StripeRefunds(v, o))
    ensures SumSeq(Listing(WooRefunds(v, o), RefundId)) == Sum(WooRefunds(v, o))
  {
    SumSeqIs(Listing(StripeRefunds(v, o), RefundId));
    SumSeqIs(Listing(WooRefunds(v, o), RefundId));
  }

  predicate PaysBackTooMuch(succeeded: seq<Payment>, stripe: seq<Refund>) {
    exists p :: p in succeeded && SumSeq(Filter(stripe, (r: Refund) => r.parentId == p.id)) > p.received.minor
  }

  lemma PaidBackIs(v: View, o: Order, succeeded: seq<Payment>, stripe: seq<Refund>)
    requires succeeded == Listing(Receipts(v, o), PaymentId) && stripe == Listing(StripeRefunds(v, o), RefundId)
    ensures PaysBackTooMuch(succeeded, stripe)
      <==> exists p :: p in Receipts(v, o) && Sum(RefundsWithin(StripeRefunds(v, o), p)) > p.received.minor
  {
    hide Listing, Receipts, StripeRefunds;
    ListingEmpty(Receipts(v, o), PaymentId);
    forall p | p in succeeded
      ensures SumSeq(Filter(stripe, (r: Refund) => r.parentId == p.id)) == Sum(RefundsWithin(StripeRefunds(v, o), p))
    {
      var keep := (r: Refund) => r.parentId == p.id;
      ListingEmpty(StripeRefunds(v, o), RefundId);
      FilterDistinct(stripe, keep);
      SumSeqIs(Filter(stripe, keep));
      assert ToSet(Filter(stripe, keep)) == RefundsWithin(StripeRefunds(v, o), p);
    }
  }

  /** The stage of an order that is not held, read off the engine's lists. */
  lemma StageSettled(v: View, o: Order, succeeded: seq<Payment>, stripe: seq<Refund>, woo: seq<Refund>)
    requires !Held(v, o) && succeeded == Listing(Receipts(v, o), PaymentId)
    requires stripe == Listing(StripeRefunds(v, o), RefundId) && woo == Listing(WooRefunds(v, o), RefundId)
    ensures forall r :: r in stripe + woo <==> r in OrderRefunds(v, o)
    ensures StageOf(v, o) ==
      if exists r :: r in stripe + woo && r.changedAt > Through(v) then LateRefund
      else if exists r :: r in stripe + woo && !SameUnit(r.amount, o.amount) then MixedCurrency
      else if o.refunded.minor > o.amount.minor || PaysBackTooMuch(succeeded, stripe) then Excess
      else if woo != [] && SumSeq(woo) != o.refunded.minor then Inconsistent
      else Judged
  {
    hide Listing, Sum, Through, GroupIds, BlockedByMatching, StripeRefunds, WooRefunds, Receipts, Group,
      PaysBackTooMuch;
    RefundSums(v, o);
    PaidBackIs(v, o, succeeded, stripe);
    ListingEmpty(StripeRefunds(v, o), RefundId);
    ListingEmpty(WooRefunds(v, o), RefundId);
  }

  lemma LatestOfRefunds(v: View, o: Order, anchor: Time, all: seq<Refund>, t: Time)
    requires forall r :: r in all <==> r in OrderRefunds(v, o)
    requires IsLatest(t, {anchor} + set r | r in all :: r.changedAt)
    ensures Latest({anchor} + set r | r in OrderRefunds(v, o) :: r.changedAt) == t
  {
    assert (set r | r in all :: r.changedAt) == set r | r in OrderRefunds(v, o) :: r.changedAt;
  }

  lemma RefundProposalIs(v: View, o: Order, anchor: Time, t: Time)
    requires anchor == if o.refunded.minor != 0 || o.status == "refunded" then o.changedAt else v.base.windowFrom
    requires Latest({anchor} + set r | r in OrderRefunds(v, o) :: r.changedAt) == t
    ensures forall rule, risk :: RefundProposal(v, o, rule, risk)
              == Make(v, rule, {OrderTag(o.id)}, Some(risk), Confidence(v, o), t + v.base.policy.refundGrace,
                   RefundFacts(BaseFacts(v, o), Listing(StripeRefunds(v, o), RefundId),
                     Listing(WooRefunds(v, o), RefundId), Sum(StripeRefunds(v, o)), o.refunded.minor,
                     o.status == "refunded"))
  {
    hide Latest, Make, Confidence, BaseFacts, Listing, StripeRefunds, WooRefunds, OrderRefunds, Sum;
  }

  lemma NothingEmitted(v: View, q: Proposal)
    ensures When(v, false, q) == []
  {
  }

  lemma ListingSize<T(!new)>(s: set<T>, key: T -> string)
    ensures |Listing(s, key)| == |s|
  {
    ListingLength(Listing(s, key));
  }

  method LatestEligible(policy: Policy, ps: seq<Payment>) returns (t: Time)
    requires ps != []
    ensures IsLatest(t, set p | p in ps :: Eligible(policy, p))
  {
    t := Eligible(policy, ps[0]);
    for i := 1 to |ps|
      invariant t in (set p | p in ps :: Eligible(policy, p))
      invariant forall k :: 0 <= k < i ==> Eligible(policy, ps[k]) <= t
    {
      if t < Eligible(policy, ps[i]) {
        t := Eligible(policy, ps[i]);
      }
    }
  }

  method LatestChange(anchor: Time, refunds: seq<Refund>) returns (t: Time)
    ensures IsLatest(t, {anchor} + set r | r in refunds :: r.changedAt)
  {
    t := anchor;
    for i := 0 to |refunds|
      invariant t in {anchor} + set r | r in refunds :: r.changedAt
      invariant anchor <= t && forall k :: 0 <= k < i ==> refunds[k].changedAt <= t
    {
      if t < refunds[i].changedAt {
        t := refunds[i].changedAt;
      }
    }
  }

  lemma ReceiptsListed(v: View, o: Order)
    requires Identified(v)
    ensures Filter(Listing(Group(v, o), PaymentId), Succeeded) == Listing(Receipts(v, o), PaymentId)
  {
    hide Listing;
    PaymentsApart(v, Group(v, o));
    FilterListing(Group(v, o), Succeeded, PaymentId, Receipts(v, o));
  }

  lemma NoOrders(v: View, orders: seq<Order>)
    ensures ToSet(orders[..0]) == {} && ExaminedEmissions(v, orders[..0]) == []
    ensures BlockedByOrders(v, {}) == {} && OrdersWarn(v, {}) == {}
  {
  }

  lemma NoPayments(v: View, payments: seq<Payment>)
    ensures ToSet(payments[..0]) == {} && UnclaimedEmissions(v, payments[..0]) == []
    ensures BlockedLoose(v, {}) == {} && LooseWarn(v, {}) == {}
  {
  }

  lemma OrderStep(v: View, done: set<Order>, o: Order)
    ensures BlockedByOrders(v, done + {o})
         == BlockedByOrders(v, done) + (if Examined(v, o) then OrderBlocks(v, o) else {})
    ensures OrdersWarn(v, done + {o})
         == OrdersWarn(v, done) + (if Examined(v, o) then OrderWarnings(v, o) else {})
  {
    hide Examined, OrderBlocks, OrderWarnings;
  }

  lemma PaymentStep(v: View, done: set<Payment>, p: Payment)
    ensures BlockedLoose(v, done + {p}) == BlockedLoose(v, done) + LooseBlocks(v, p)
    ensures LooseWarn(v, done + {p}) == LooseWarn(v, done) + LooseWarnings(v, p)
  {
    hide LooseBlocks, LooseWarnings;
  }

  lemma NextPayment(v: View, payments: seq<Payment>, k: nat)
    requires IsListing(payments, v.payments, PaymentId) && k < |payments|
    ensures payments[k] in v.payments && payments[k] !in ToSet(payments[..k])
    ensures ToSet(payments[..k]) <= v.payments
    ensures ToSet(payments[..k + 1]) == ToSet(payments[..k]) + {payments[k]}
    ensures UnclaimedEmissions(v, payments[..k + 1])
         == UnclaimedEmissions(v, payments[..k]) + LooseEmissions(v, payments[k])
  {
    hide LooseEmissions;
    assert payments[..k + 1][..k] == payments[..k];
    assert payments[k] in ToSet(payments);
    assert payments[..k + 1] == payments[..k] + [payments[k]];
    assert forall x :: x in payments[..k] ==> x in ToSet(payments);
  }

  lemma NextOrder(v: View, orders: seq<Order>, k: nat)
    requires IsListing(orders, v.orders, OrderId) && k < |orders|
    ensures orders[k] in v.orders && orders[k] !in ToSet(orders[..k]) && ToSet(orders[..k]) <= v.orders
    ensures ToSet(orders[..k + 1]) == ToSet(orders[..k]) + {orders[k]}
    ensures orders[..k + 1][..k] == orders[..k]
    ensures k + 1 == |orders| ==> orders[..k + 1] == orders
  {
    assert orders[k] in ToSet(orders);
    assert orders[..k + 1] == orders[..k] + [orders[k]];
    assert forall x :: x in orders[..k] ==> x in ToSet(orders);
  }

  lemma NoMismatch(v: View, orders: seq<Order>)
    ensures ToSet(orders[..0]) == {} && MismatchBlocks(v, {}) == {} && ConflictEmissions(v, orders[..0]) == []
  {
  }

  lemma ConflictStep(v: View, orders: seq<Order>, k: nat)
    requires k < |orders|
    ensures ConflictEmissions(v, orders[..k + 1])
         == ConflictEmissions(v, orders[..k]) + When(v, Mismatched(v, orders[k]), ConflictProposal(v, orders[k]))
  {
    assert orders[..k + 1][..k] == orders[..k];
  }

  lemma MismatchStep(v: View, done: set<Order>, o: Order)
    ensures MismatchBlocks(v, done + {o})
         == MismatchBlocks(v, done) + (if Mismatched(v, o) then ConflictIds(v, o) else {})
  {
  }

  lemma ContestStep(v: View, ids: set<string>, id: string)
    ensures ContestBlocks(v, ids + {id})
         == ContestBlocks(v, ids) + (if Contested(v, id) then ClaimIds(v, id) else {})
  {
  }

  lemma NoClaims(v: View, ids: seq<string>)
    ensures ContestBlocks(v, ToSet(ids[..0])) == {} && ClaimEmissions(v, ids[..0]) == []
  {
  }

  lemma NextClaim(v: View, ids: seq<string>, k: nat)
    requires ids == Listing(Claimed(v), Self) && k < |ids|
    ensures ids[k] in Claimed(v) && Known(v, ids[k])
    ensures ContestBlocks(v, ToSet(ids[..k + 1]))
         == ContestBlocks(v, ToSet(ids[..k])) + (if Contested(v, ids[k]) then ClaimIds(v, ids[k]) else {})
    ensures ClaimEmissions(v, ids[..k + 1])
         == ClaimEmissions(v, ids[..k]) + When(v, Contested(v, ids[k]), ClaimProposal(v, ids[k]))
  {
    hide Claimed, Contested, ClaimIds, ClaimProposal, Listing;
    ListingEmpty(Claimed(v), Self);
    assert ids[k] in ids && ids[..k + 1][..k] == ids[..k];
    assert ToSet(ids[..k + 1]) == ToSet(ids[..k]) + {ids[k]};
    ContestStep(v, ToSet(ids[..k]), ids[k]);
    ClaimedIsKnown(v, ids[k]);
  }

  lemma ClaimedIsKnown(v: View, id: string)
    requires id in Claimed(v)
    ensures Known(v, id)
  {
    var o, p :| o in v.orders && Matched(v, o) && p in Group(v, o) && p.id == id;
  }

  lemma ClaimantsAll(v: View, id: string)
    ensures ClaimantsAmong(v, v.orders, id) == Claimants(v, id)
  {
  }

  lemma ClaimKeys(v: View, claimed: map<string, seq<string>>)
    requires ClaimTable(v, v.orders, claimed)
    ensures claimed.Keys == Claimed(v)
  {
    forall id ensures id in claimed <==> id in Claimed(v) {
      ClaimedIff(v, id);
      if id in claimed {
        assert claimed[id][0] in ToSet(Lookup(claimed, id, []));
      }
    }
  }

  lemma ClaimedIff(v: View, id: string)
    ensures id in Claimed(v) <==> ClaimantsAmong(v, v.orders, id) != {}
  {
    if id in Claimed(v) {
      var o, p :| o in v.orders && Matched(v, o) && p in Group(v, o) && p.id == id;
      assert o.id in ClaimantsAmong(v, v.orders, id);
    }
  }

  /** The claimants of one payment, as the list the engine keeps. */
  lemma ClaimantList(v: View, claimed: map<string, seq<string>>, id: string)
    requires ClaimTable(v, v.orders, claimed) && id in claimed
    ensures |claimed[id]| > 1 <==> Contested(v, id)
    ensures SortBy(claimed[id], Self) == Listing(Claimants(v, id), Self)
    ensures (set oid | oid in claimed[id] :: OrderTag(oid)) + {PaymentTag(id)} == ClaimIds(v, id)
  {
    ClaimantsAll(v, id);
    var oids := claimed[id];
    assert oids == Lookup(claimed, id, []) && ToSet(oids) == Claimants(v, id);
    ListingLength(oids);
    SortByIsListing(oids, Self);
    ListingIs(SortBy(oids, Self), Claimants(v, id), Self);
  }

  lemma KnownPayment(v: View, payments: map<string, Payment>, id: string)
    requires Identified(v) && Known(v, id)
    requires forall p :: p in v.payments ==> p.id in payments && payments[p.id] == p
    ensures id in payments && payments[id] == PaymentOf(v, id)
  {
  }

  lemma MatchingBlocks(v: View, ids: seq<string>)
    requires ids == Listing(Claimed(v), Self)
    ensures ids[..|ids|] == ids
    ensures MismatchBlocks(v, v.orders) + ContestBlocks(v, ToSet(ids)) == BlockedByMatching(v)
  {
    ListingEmpty(Claimed(v), Self);
    assert ToSet(ids) == Claimed(v);
  }

  function Ids(ps: seq<Payment>): set<string> { set p | p in ps :: p.id }

  /** The claims on `id` after `oid` has claimed the payments of `ids`. */
  function Claim(before: map<string, seq<string>>, ids: set<string>, id: string, oid: string): seq<string> {
    if id in ids then Lookup(before, id, []) + [oid] else Lookup(before, id, [])
  }

  lemma IdsGrow(v: View, o: Order, group: seq<Payment>, i: nat)
    requires Identified(v) && group == Listing(Group(v, o), PaymentId) && i < |group|
    ensures Ids(group[..i + 1]) == Ids(group[..i]) + {group[i].id}
    ensures group[i].id !in Ids(group[..i])
    ensures i + 1 == |group| ==> group[..i + 1] == group
  {
    assert group[..i + 1] == group[..i] + [group[i]];
    ListingEmpty(Group(v, o), PaymentId);
    forall k | 0 <= k < i ensures group[k].id != group[i].id {
      assert group[k] in group && group[i] in group;
      assert PaymentId(group[k]) == group[k].id && PaymentId(group[i]) == group[i].id;
    }
  }

  lemma ClaimAdds(v: View, o: Order, before: map<string, seq<string>>, group: seq<Payment>, id: string)
    requires group == Listing(Group(v, o), PaymentId) && o.id !in Lookup(before, id, [])
    requires Matched(v, o) && Distinct(Lookup(before, id, []))
    ensures var all := Claim(before, Ids(group[..|group|]), id, o.id);
      && Distinct(all)
      && ToSet(all) == ToSet(Lookup(before, id, []))
          + (if Matched(v, o) && exists p :: p in Group(v, o) && p.id == id then {o.id} else {})
  {
    ListingEmpty(Group(v, o), PaymentId);
    assert group[..|group|] == group;
    assert ToSet(Lookup(before, id, []) + [o.id]) == ToSet(Lookup(before, id, [])) + {o.id};
  }

  lemma SelfInjective(s: set<string>)
    ensures Injective(s, Self)
  {
  }

  lemma DistinctOrders(v: View, a: Order, b: Order)
    requires Identified(v) && a in v.orders && b in v.orders && a != b
    ensures a.id != b.id
  {
    assert OrderId(a) != OrderId(b);
  }

  lemma HintingIs(s: Snapshot, codec: Codec, o: Order)
    ensures HintsFor(s.payments, s.storeId, o.id) == Hinting(ViewOf(s, codec), o)
  {
  }

  lemma GroupIs(v: View, o: Order, resolved: set<string>, hinting: seq<Payment>, candidates: set<Payment>)
    requires resolved == Resolved(v, o) && ToSet(hinting) == Hinting(v, o)
    requires candidates == set p | p in v.payments && (p.id in resolved || p in hinting)
    ensures candidates == Group(v, o)
  {
    assert forall p :: p in hinting <==> p in ToSet(hinting);
  }

  lemma PaymentsApart(v: View, some: set<Payment>)
    requires Identified(v) && some <= v.payments
    ensures Injective(some, PaymentId)
  {
  }

  lemma ClaimStep(v: View, done: set<Order>, o: Order, id: string)
    ensures ClaimantsAmong(v, done + {o}, id) == ClaimantsAmong(v, done, id)
      + (if Matched(v, o) && exists p :: p in Group(v, o) && p.id == id then {o.id} else {})
  {
  }

  // ----- the entry point -----

  /** The earliest boundary among the required sources present. */
  method SharedBoundary(coverage: seq<Coverage>, ghost v: View) returns (t: Time)
    requires v.coverage == ToSet(coverage)
    ensures t == Through(v)
  {
    t := 0;
    var found := false;
    for i := 0 to |coverage|
      invariant found <==> exists k :: 0 <= k < i && coverage[k].source in REQUIRED
      invariant !found ==> t == 0
      invariant found ==> exists k :: 0 <= k < i && coverage[k].source in REQUIRED && coverage[k].coveredThrough == t
      invariant forall k :: 0 <= k < i && coverage[k].source in REQUIRED ==> found && t <= coverage[k].coveredThrough
    {
      if coverage[i].source in REQUIRED && (!found || coverage[i].coveredThrough < t) {
        t, found := coverage[i].coveredThrough, true;
      }
    }
    assert forall c :: c in v.coverage <==> c in coverage;
    if found {
      assert IsThrough(v, t);
    } else {
      assert !exists u :: IsThrough(v, u);
    }
  }

  method BuildIndex(payments: seq<Payment>) returns (index: map<string, Payment>)
    requires Injective(ToSet(payments), PaymentId)
    ensures forall p :: p in payments ==> p.id in index && index[p.id] == p
  {
    index := map[];
    for i := 0 to |payments|
      invariant forall k :: 0 <= k < i ==> payments[k].id in index && index[payments[k].id] == payments[k]
    {
      forall k | 0 <= k < i && payments[k].id == payments[i].id ensures payments[k] == payments[i] {
        assert PaymentId(payments[k]) == PaymentId(payments[i]);
        assert payments[k] in ToSet(payments) && payments[i] in ToSet(payments);
      }
      index := index[payments[i].id := payments[i]];
    }
  }

  lemma SortedIs<T(!new)>(xs: seq<T>, key: T -> string)
    requires Distinct(xs) && Injective(ToSet(xs), key)
    ensures SortBy(xs, key) == Listing(ToSet(xs), key)
  {
    SortByIsListing(xs, key);
    ListingIs(SortBy(xs, key), ToSet(xs), key);
  }

  method InputDigest(s: Snapshot, codec: Codec) returns (digest: string)
    requires codec.Faithful() && InputError(s).None?
    ensures digest == Digest(ViewOf(s, codec))
  {
    ChecksIdentify(s, codec);
    SortedIs(s.payments, codec.payment);
    SortedIs(s.orders, codec.order);
    SortedIs(s.refunds, codec.refund);
    SortedIs(s.coverage, codec.coverage);
    hide InputError, Listing, SortBy;
    digest := codec.digest(s.(
      payments := SortBy(s.payments, codec.payment), orders := SortBy(s.orders, codec.order),
      refunds := SortBy(s.refunds, codec.refund), coverage := SortBy(s.coverage, codec.coverage)));
  }

  method StaleSources(s: Snapshot, codec: Codec) returns (stale: seq<string>)
    ensures stale == Listing(Stale(ViewOf(s, codec)), Self)
  {
    var missing := set k | k in REQUIRED && !exists c ::
      c in s.coverage && c.source == k && c.Fresh(s.now, s.windowFrom, s.policy.freshness);
    assert missing == Stale(ViewOf(s, codec));
    SelfInjective(missing);
    stale := SortSet(missing, Self);
  }

  /** The whole evaluation returns what the order-free specification says. */
  method Evaluate(s: Snapshot, codec: Codec) returns (r: Result<Evaluation, EvaluationError>)
    requires codec.Faithful()
    ensures r == Answer(s, codec)
  {
    hide Expected, InputError;
    var problem := InputError(s);
    if problem.Some? {
      r := Err(problem.value);
    } else {
      r := EvaluateChecked(s, codec);
    }
  }

  method EvaluateChecked(s: Snapshot, codec: Codec) returns (r: Result<Evaluation, EvaluationError>)
    requires codec.Faithful() && InputError(s).None?
    ensures r == Expected(ViewOf(s, codec))
  {
    hide InputError, Stale, Listing, Digest, ViewOf, Identified, Reconciled, Unevaluated;
    ghost var v := ViewOf(s, codec);
    var digest := InputDigest(s, codec);
    var run := Prepare(s, codec);
    var stale := StaleSources(s, codec);
    ListingEmpty(Stale(v), Self);
    ScalarsKept(s, codec);
    if stale != [] {
      var e := Withhold(run, true, PI009, Facts.StaleSources(stale), {PI009}, [], digest);
      r := Ok(e);
    } else if !s.linkVerified || s.linkConflict {
      var e := Withhold(run, s.linkConflict, PI010, LinkConflict, {PI009, PI010}, ["link_unverified"], digest);
      r := Ok(e);
    } else {
      r := Reconcile(run, digest);
    }
  }

  /** An evaluation that stops before matching: at most one proposal about the store. */
  method Withhold(run: Reconciliation, applies: bool, rule: Rule, facts: Facts, rules: set<Rule>,
      warnings: seq<string>, digest: string) returns (e: Evaluation)
    requires run.Valid() && run.proposals == [] && digest == Digest(run.v)
    modifies run
    ensures e == Unevaluated(run.v, applies, rule, facts, rules, warnings)
  {
    hide Make, Listing, Digest, Identified, EnabledRules;
    run.ViewIsOfSnapshot();
    if applies {
      run.Emit(rule, {"store:" + run.s.storeId}, None, 100, run.s.now, facts);
    }
    e := Evaluation(run.proposals, Filter(EnabledRules(run.s.policy), (r: Rule) => r in rules), [], warnings, digest);
  }

  method Reconcile(run: Reconciliation, digest: string) returns (r: Result<Evaluation, EvaluationError>)
    requires run.Valid() && run.MatchedUp({}) && run.blocked == {} && run.warnings == {} && run.proposals == []
    requires digest == Digest(run.v)
    modifies run
    ensures r == Reconciled(run.v)
  {
    hide Listing, SortBy, Blocked, Warnings, Overflows, Emissions;
    run.ViewIsOfSnapshot();
    var overflow := RunPasses(run);
    if overflow {
      return Err(AmountOutOfRange);
    }
    SelfInjective(run.blocked);
    SelfInjective(run.warnings);
    var blocked := SortSet(run.blocked, Self);
    var warnings := SortSet(run.warnings, Self);
    r := Ok(Evaluation(SortBy(run.proposals, ProposalKey), EnabledRules(run.s.policy), blocked, warnings, digest));
  }

  lemma ScalarsKept(s: Snapshot, codec: Codec)
    ensures var b := ViewOf(s, codec).base;
      && b.policy == s.policy && b.storeId == s.storeId && b.now == s.now
      && b.linkVerified == s.linkVerified && b.linkConflict == s.linkConflict
  {
  }

  method Prepare(s: Snapshot, codec: Codec) returns (run: Reconciliation)
    requires InputError(s).None?
    ensures fresh(run) && run.Valid() && run.v == ViewOf(s, codec) && run.s == s && run.codec == codec
    ensures run.blocked == {} && run.warnings == {} && run.proposals == [] && run.MatchedUp({})
  {
    ChecksIdentify(s, codec);
    SortedIs(s.coverage, CoverageSource);
    hide InputError, SortBy, Listing;
    var evidence := SortBy(s.coverage, CoverageSource);
    var through := SharedBoundary(s.coverage, ViewOf(s, codec));
    run := new Reconciliation(s, codec, evidence, through);
  }

  method RunPasses(run: Reconciliation) returns (overflow: bool)
    requires run.Valid() && run.MatchedUp({}) && run.blocked == {} && run.warnings == {} && run.proposals == []
    modifies run
    ensures overflow <==> exists o :: o in run.v.orders && Overflows(run.v, o)
    ensures !overflow ==> run.blocked == Blocked(run.v) && run.warnings == Warnings(run.v)
    ensures !overflow ==> run.proposals == Emissions(run.v)
  {
    hide Overflows, Blocked, Warnings, BlockedByMatching, ConflictEmissions, ClaimEmissions, ExaminedEmissions,
      UnclaimedEmissions, Listing, MismatchBlocks, MatchTable, ClaimTable, Identified;
    run.ViewIsOfSnapshot();
    PaymentsApart(run.v, run.v.payments);
    var index := BuildIndex(run.s.payments);
    run.MatchPass();
    run.ClaimPass(index);
    overflow := run.OrderPass();
    if overflow {
      return;
    }
    run.PaymentPass();
  }
}
