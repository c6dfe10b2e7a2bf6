/**
 Tenant erasure: the deletion order of the tenant's models, and the delete loop that follows it.
 `refs(m)` holds the models that the foreign keys of `m` point to.
 */
module Maintenance {
  import opened Wrappers
  import opened Ordering

  type Model = string
  type References = Model -> set<Model>
  datatype ErasureError = ReceiptMismatch | NotRequested | DependencyCycle | VerificationFailed

  /** Every model comes before each model it references. */
  ghost predicate ReferencesFirst(order: seq<Model>, refs: References) {
    forall i, j :: 0 <= i < |order| && 0 <= j < |order| && order[j] in refs(order[i]) ==> i < j
  }

  ghost predicate IsWalk(p: seq<Model>, models: set<Model>, refs: References) {
    && p != []
    && (forall k :: 0 <= k < |p| ==> p[k] in models)
    && (forall k :: 0 <= k < |p| - 1 ==> p[k + 1] in refs(p[k]))
  }

  /** A walk of references that returns to its start; one model referencing itself is such a walk. */
  ghost predicate IsCycle(p: seq<Model>, models: set<Model>, refs: References) {
    IsWalk(p, models, refs) && p[0] in refs(p[|p| - 1])
  }

  lemma {:induction false} WalkIndexGrows(p: seq<Model>, order: seq<Model>, refs: References, k: nat)
      returns (i: nat, j: nat)
    requires IsWalk(p, ToSet(order), refs) && ReferencesFirst(order, refs) && k < |p|
    ensures i < |order| && j < |order| && order[i] == p[0] && order[j] == p[k] && i <= j
  {
    if k == 0 {
      assert p[0] in order;
      i :| 0 <= i < |order| && order[i] == p[0];
      j := i;
    } else {
      var m;
      i, m := WalkIndexGrows(p, order, refs, k - 1);
      assert p[k - 1 + 1] in refs(p[k - 1]) && p[k] in order;
      j :| 0 <= j < |order| && order[j] == p[k];
    }
  }

  lemma OrderExcludesCycle(p: seq<Model>, order: seq<Model>, refs: References)
    requires ReferencesFirst(order, refs)
    ensures !IsCycle(p, ToSet(order), refs)
  {
    if IsWalk(p, ToSet(order), refs) {
      var i, j := WalkIndexGrows(p, order, refs, |p| - 1);
      assert order[i] !in refs(order[j]);
    }
  }

  lemma {:induction false} DistinctFits<T>(p: seq<T>, s: set<T>)
    requires Distinct(p) && forall k :: 0 <= k < |p| ==> p[k] in s
    ensures |p| <= |s|
  {
    if p != [] {
      assert p[0] !in p[1..];
      DistinctFits(p[1..], s - {p[0]});
    }
  }

  /** Where every model is referenced by another one of the set, walking backwards must close a cycle. */
  lemma {:induction false} UnreferencedOrCycle(p: seq<Model>, models: set<Model>, refs: References)
      returns (cycle: seq<Model>)
    requires IsWalk(p, models, refs) && Distinct(p)
    requires forall m :: m in models ==> exists n :: n in models && m in refs(n)
    ensures IsCycle(cycle, models, refs)
    decreases |models| - |p|
  {
    assert p[0] in models;
    var n :| n in models && p[0] in refs(n);
    if n in p {
      var k :| 0 <= k < |p| && p[k] == n;
      cycle := p[..k + 1];
    } else {
      WalkExtends(n, p, models, refs);
      DistinctFits([n] + p, models);
      cycle := UnreferencedOrCycle([n] + p, models, refs);
    }
  }

  lemma WalkExtends(n: Model, p: seq<Model>, models: set<Model>, refs: References)
    requires IsWalk(p, models, refs) && Distinct(p) && n in models && p[0] in refs(n) && n !in p
    ensures IsWalk([n] + p, models, refs) && Distinct([n] + p)
    ensures forall k :: 0 <= k < |p| + 1 ==> ([n] + p)[k] in models
  {
    var q := [n] + p;
    forall k | 0 <= k < |q| - 1 ensures q[k + 1] in refs(q[k]) {
      if k > 0 { assert q[k] == p[k - 1] && q[k + 1] == p[k - 1 + 1]; }
    }
  }

  /** The remaining models that no remaining model references. */
  function Leaves(remaining: seq<Model>, refs: References): seq<Model> {
    var referenced := set m, n | m in remaining && n in remaining && n in refs(m) :: n;
    Filter(remaining, m => m !in referenced)
  }

  function Except(remaining: seq<Model>, leaves: seq<Model>): seq<Model> {
    Filter(remaining, m => m !in leaves)
  }

  ghost predicate Ahead(remaining: seq<Model>, ordered: seq<Model>, refs: References) {
    forall m, n :: m in remaining && n in ordered ==> n !in refs(m)
  }

  method TenantModels(models: seq<Model>, refs: References) returns (r: Result<seq<Model>, ErasureError>)
    requires Distinct(models)
    ensures r.Ok? ==> multiset(r.value) == multiset(models) && ReferencesFirst(r.value, refs)
    ensures r.Err? ==> r.error == DependencyCycle
    ensures r.Err? <==> exists p :: IsCycle(p, ToSet(models), refs)
  {
    var remaining := models;
    var ordered: seq<Model> := [];
    while remaining != []
      invariant Distinct(remaining)
      invariant multiset(ordered) + multiset(remaining) == multiset(models)
      invariant ReferencesFirst(ordered, refs)
      invariant Ahead(remaining, ordered, refs)
      decreases |remaining|
    {
      var leaves := Leaves(remaining, refs);
      if leaves == [] {
        CycleAmong(remaining, models, ordered, refs);
        return Err(DependencyCycle);
      }
      PeelLeaves(remaining, refs);
      AppendLeaves(ordered, remaining, refs);
      ghost var rest := Except(remaining, leaves);
      assert multiset(ordered + leaves) + multiset(rest) == multiset(models);
      ordered := ordered + leaves;
      remaining := Except(remaining, leaves);
    }
    r := Ok(ordered);
    assert multiset(ordered) == multiset(models);
    SameElements(ordered, models);
    forall p ensures !IsCycle(p, ToSet(models), refs) {
      OrderExcludesCycle(p, ordered, refs);
    }
  }

  lemma CycleAmong(remaining: seq<Model>, models: seq<Model>, ordered: seq<Model>, refs: References)
    requires remaining != [] && multiset(ordered) + multiset(remaining) == multiset(models)
    requires Leaves(remaining, refs) == []
    ensures exists p :: IsCycle(p, ToSet(models), refs)
  {
    var referenced := set m, n | m in remaining && n in remaining && n in refs(m) :: n;
    forall n | n in ToSet(remaining) ensures exists m :: m in ToSet(remaining) && n in refs(m) {
      assert n !in Leaves(remaining, refs);
      assert n in referenced;
    }
    var p := UnreferencedOrCycle([remaining[0]], ToSet(remaining), refs);
    forall m | m in remaining ensures m in ToSet(models) {
      assert m in multiset(remaining);
      assert m in multiset(models);
    }
    assert IsCycle(p, ToSet(models), refs);
  }

  lemma {:induction false} FilterSplits<T(!new)>(xs: seq<T>, keep: T -> bool, drop: T -> bool)
    requires forall x :: x in xs ==> drop(x) == !keep(x)
    ensures multiset(Filter(xs, keep)) + multiset(Filter(xs, drop)) == multiset(xs)
  {
    if xs != [] {
      assert xs == [xs[0]] + xs[1..];
      FilterSplits(xs[1..], keep, drop);
    }
  }

  lemma PeelLeaves(remaining: seq<Model>, refs: References)
    requires Distinct(remaining) && Leaves(remaining, refs) != []
    ensures var leaves := Leaves(remaining, refs); var rest := Except(remaining, leaves);
      Distinct(rest) && multiset(leaves) + multiset(rest) == multiset(remaining) && |rest| < |remaining|
  {
    var referenced := set m, n | m in remaining && n in remaining && n in refs(m) :: n;
    var leaves := Leaves(remaining, refs);
    var keep, drop := m => m !in referenced, m => m !in leaves;
    assert leaves == Filter(remaining, keep) && Except(remaining, leaves) == Filter(remaining, drop);
    FilterSplits(remaining, keep, drop);
    FilterDistinct(remaining, drop);
    assert |multiset(remaining)| == |leaves| + |Except(remaining, leaves)|;
  }

  lemma AppendLeaves(ordered: seq<Model>, remaining: seq<Model>, refs: References)
    requires ReferencesFirst(ordered, refs) && Ahead(remaining, ordered, refs)
    ensures var leaves := Leaves(remaining, refs);
      ReferencesFirst(ordered + leaves, refs) && Ahead(Except(remaining, leaves), ordered + leaves, refs)
  {
    var leaves := Leaves(remaining, refs);
    assert forall m, n :: m in remaining && n in leaves ==> n !in refs(m);
    var all := ordered + leaves;
    forall i, j | 0 <= j <= i < |all| ensures all[j] !in refs(all[i]) {
      if i < |ordered| {
        assert all[j] == ordered[j] && all[i] == ordered[i];
      } else {
        assert all[i] in leaves;
        assert all[j] in ordered || all[j] in leaves;
      }
    }
  }

  // ----- the delete loop -----

  type RowId = nat
  type Org = nat

  /** A stored row; `parents` are the rows its foreign keys name. */
  datatype Row = Row(model: Model, org: Org, parents: set<RowId>)
  type Table = map<RowId, Row>

  ghost predicate NoDangling(db: Table) {
    forall id, p :: id in db && p in db[id].parents ==> p in db
  }

  ghost predicate FollowsSchema(db: Table, refs: References) {
    forall id, p :: id in db && p in db[id].parents && p in db ==> db[p].model in refs(db[id].model)
  }

  /** Only the tenant's own rows, in the erased models, point at the tenant's rows in the erased models. */
  ghost predicate TenantClosed(db: Table, org: Org, models: set<Model>) {
    forall id, p :: id in db && p in db[id].parents && p in db && db[p].org == org && db[p].model in models ==>
      db[id].org == org && db[id].model in models
  }

  predicate Doomed(row: Row, org: Org, models: seq<Model>) {
    row.org == org && row.model in models
  }

  /** What is left after deleting the tenant's rows of `models`. */
  function Without(db: Table, org: Org, models: seq<Model>): Table {
    map id | id in db && !Doomed(db[id], org, models) :: db[id]
  }

  function RowsOf(db: Table, org: Org, model: Model): set<RowId> {
    set id | id in db && db[id].org == org && db[id].model == model
  }

  /** After any number of delete steps no remaining row names a deleted one. */
  lemma EveryDeleteStepIsSafe(db: Table, org: Org, order: seq<Model>, refs: References, k: nat)
    requires NoDangling(db) && FollowsSchema(db, refs) && TenantClosed(db, org, ToSet(order))
    requires ReferencesFirst(order, refs) && k <= |order|
    ensures NoDangling(Without(db, org, order[..k]))
  {
    var left := Without(db, org, order[..k]);
    forall id, p | id in left && p in left[id].parents ensures p in left {
      assert id in db && p in db[id].parents && p in db;
      if db[p].org == org && db[p].model in order {
        assert db[p].model in ToSet(order) && db[id].org == org && db[id].model in order;
        var i :| 0 <= i < |order| && order[i] == db[id].model;
        assert forall j :: 0 <= j < k ==> order[..k][j] == order[j];
        assert i >= k;
        assert forall j :: 0 <= j < k ==> order[j] !in refs(order[i]);
      }
    }
  }

  datatype Organization = Organization(active: bool, deletionRequested: bool)

  /** What stands in the way of an erasure: a replayed receipt of another tenant, no request, or cyclic references. */
  ghost function Obstacle(org: Org, organization: Organization, replay: Option<Org>, models: seq<Model>,
      refs: References): Option<ErasureError>
  {
    if replay.Some? && replay.value != org then Some(ReceiptMismatch)
    else if organization.active || !organization.deletionRequested then Some(NotRequested)
    else if exists p :: IsCycle(p, ToSet(models), refs) then Some(DependencyCycle)
    else None
  }

  class TenantStore {
    var rows: Table

    method EraseTenant(org: Org, organization: Organization, replay: Option<Org>, models: seq<Model>, refs: References)
        returns (r: Result<map<Model, nat>, ErasureError>)
      requires Distinct(models)
      modifies this
      ensures match Obstacle(org, organization, replay, models, refs)
              case Some(error) => r == Err(error) && rows == old(rows)
              case None => rows == Without(old(rows), org, models) && r == Ok(Counts(old(rows), org, models))
    {
      if replay.Some? && replay.value != org {
        return Err(ReceiptMismatch);
      }
      if organization.active || !organization.deletionRequested {
        return Err(NotRequested);
      }
      var listed := TenantModels(models, refs);
      if listed.Err? {
        return Err(listed.error);
      }
      var order := listed.value;
      SameElements(order, models);
      DistinctMultiset(models);
      MultisetDistinct(order);
      ghost var before := rows;
      var counts := DeleteAll(org, order);
      for k := 0 to |order| {
        if |RowsOf(rows, org, order[k])| != 0 {
          NothingLeft(before, org, order, k);
          assert false;
          return Err(VerificationFailed);
        }
      }
      SameFates(before, org, order, models);
      r := Ok(counts);
    }

    method DeleteAll(org: Org, order: seq<Model>) returns (counts: map<Model, nat>)
      requires Distinct(order)
      modifies this
      ensures rows == Without(old(rows), org, order)
      ensures counts == Counts(old(rows), org, order)
    {
      counts := map[];
      for k := 0 to |order|
        invariant rows == Without(old(rows), org, order[..k])
        invariant counts == Counts(old(rows), org, order[..k])
      {
        var deleted := RowsOf(rows, org, order[k]);
        DeleteStep(old(rows), org, order, k);
        rows := rows - deleted;
        counts := counts[order[k] := |deleted|];
      }
      assert order[..|order|] == order;
    }
  }

  /** Erasure goes ahead exactly on request, for an inactive organization, and when the references have an order. */
  lemma ErasesIff(org: Org, organization: Organization, replay: Option<Org>, models: seq<Model>, refs: References)
    ensures Obstacle(org, organization, replay, models, refs).None? <==>
              && (replay == None || replay == Some(org)) && !organization.active && organization.deletionRequested
              && !exists p :: IsCycle(p, ToSet(models), refs)
    ensures replay.Some? && replay.value != org ==>
              Obstacle(org, organization, replay, models, refs) == Some(ReceiptMismatch)
  {
    hide IsCycle;
  }

  /** A row survives, unchanged, unless it is the tenant's and of an erased model. */
  lemma SurvivesIff(db: Table, org: Org, models: seq<Model>, id: RowId)
    ensures var left := Without(db, org, models);
      && (id in left <==>
            id in db && !(db[id].org == org && exists k :: 0 <= k < |models| && models[k] == db[id].model))
      && (id in left ==> left[id] == db[id])
  {
  }

  /** Each erased row is counted once: the counts add up to the rows that are gone. */
  lemma {:induction false} ErasedAreCounted(db: Table, org: Org, models: seq<Model>)
    requires Distinct(models)
    ensures CountedTotal(Counts(db, org, models), models) + |Without(db, org, models)| == |db|
  {
    hide Without, Counts, RowsOf;
    if models == [] {
      NothingErased(db, org);
    } else {
      var init, last := models[..|models| - 1], models[|models| - 1];
      ErasedAreCounted(db, org, init);
      DeleteStep(db, org, models, |init|);
      assert models[..|models|] == models && last !in init;
      CountStep(db, org, init, last);
      SameTotals(Counts(db, org, init), Counts(db, org, models), init);
      FewerRows(Without(db, org, init), RowsOf(Without(db, org, init), org, last));
    }
  }

  lemma NothingErased(db: Table, org: Org)
    ensures Without(db, org, []) == db
  {
  }

  lemma CountStep(db: Table, org: Org, init: seq<Model>, last: Model)
    ensures forall m :: m in init ==> m in Counts(db, org, init)
    ensures forall m :: m in init + [last] ==> m in Counts(db, org, init + [last])
    ensures forall m :: m in init ==> Counts(db, org, init)[m] == Counts(db, org, init + [last])[m]
    ensures Counts(db, org, init + [last])[last] == |RowsOf(db, org, last)|
    ensures RowsOf(Without(db, org, init), org, last) <= Without(db, org, init).Keys
  {
    hide Without;
  }

  lemma FewerRows(db: Table, gone: set<RowId>)
    requires gone <= db.Keys
    ensures |db - gone| == |db| - |gone|
  {
    assert (db - gone).Keys == db.Keys - gone;
    assert |(db - gone).Keys| == |db - gone| && |db.Keys| == |db|;
  }

  function CountedTotal(counts: map<Model, nat>, models: seq<Model>): nat
    requires forall m :: m in models ==> m in counts
  {
    if models == [] then 0 else CountedTotal(counts, models[..|models| - 1]) + counts[models[|models| - 1]]
  }

  lemma {:induction false} SameTotals(a: map<Model, nat>, b: map<Model, nat>, models: seq<Model>)
    requires forall m :: m in models ==> m in a && m in b && a[m] == b[m]
    ensures CountedTotal(a, models) == CountedTotal(b, models)
  {
    if models != [] { SameTotals(a, b, models[..|models| - 1]); }
  }

  function Counts(db: Table, org: Org, order: seq<Model>): map<Model, nat> {
    map m | m in order :: |RowsOf(db, org, m)|
  }

  lemma DeleteStep(db: Table, org: Org, order: seq<Model>, k: nat)
    requires Distinct(order) && k < |order|
    ensures var left := Without(db, org, order[..k]); var deleted := RowsOf(left, org, order[k]);
      && deleted == RowsOf(db, org, order[k])
      && left - deleted == Without(db, org, order[..k + 1])
      && Counts(db, org, order[..k])[order[k] := |deleted|] == Counts(db, org, order[..k + 1])
  {
    assert order[..k + 1] == order[..k] + [order[k]];
    assert order[k] !in order[..k];
    assert RowsOf(Without(db, org, order[..k]), org, order[k]) == RowsOf(db, org, order[k]);
  }

  lemma NothingLeft(db: Table, org: Org, order: seq<Model>, k: nat)
    requires k < |order|
    ensures |RowsOf(Without(db, org, order), org, order[k])| == 0
  {
    assert RowsOf(Without(db, org, order), org, order[k]) == {};
  }

  lemma SameFates(db: Table, org: Org, xs: seq<Model>, ys: seq<Model>)
    requires ToSet(xs) == ToSet(ys)
    ensures Without(db, org, xs) == Without(db, org, ys)
    ensures Counts(db, org, xs) == Counts(db, org, ys)
  {
    assert forall m :: m in xs <==> m in ToSet(xs);
    assert forall m :: m in ys <==> m in ToSet(ys);
  }
}
