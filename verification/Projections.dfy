/**
 The versioned projection store of one connector: immutable observations and, for each source object, the projection
 of the latest accepted one. A conflicting observation marks the connector's coverage incomplete and raises, and the
 caller's savepoint takes everything back, that mark included.
 */
module Projections {
  import opened Wrappers
  import opened Domain
  import opened Intervals

  /** A normalised source fact. `columns` are the fields a projection stores; `rest` is the remaining content. */
  datatype Data = Data(status: string, succeededAt: Option<Time>, columns: map<string, string>, rest: string)

  datatype Observation = Observation(revision: Time, data: Data)

  datatype Projection = Projection(
    status: string, succeededAt: Option<Time>, columns: map<string, string>, revision: Time,
    observation: Observation, lockVersion: nat)

  /** The rows of one source object. */
  datatype Entry = Entry(current: Option<Projection>, observations: set<Observation>)

  const NO_ROWS := Entry(None, {})

  datatype Key = Key(kind: string, sourceId: string)
  type Entries = map<Key, Entry>

  datatype Disposition = Accepted | Duplicate
  datatype Conflict = SourceRevisionConflict

  function EntryOf(entries: Entries, key: Key): Entry { if key in entries then entries[key] else NO_ROWS }

  /** The time a payment is taken to have succeeded, once `observation` is accepted over `current`. */
  function SucceededAt(kind: string, current: Option<Projection>, o: Observation): Option<Time> {
    if kind == "payment" && o.data.status == "succeeded" then
      if current.Some? && current.value.succeededAt.Some? then current.value.succeededAt else Some(o.revision)
    else if o.data.succeededAt.Some? then o.data.succeededAt
    else if current.Some? then current.value.succeededAt
    else None
  }

  function Projected(kind: string, current: Option<Projection>, o: Observation): Projection {
    var columns := if current.Some? then current.value.columns + o.data.columns else o.data.columns;
    var version := if current.Some? then current.value.lockVersion + 1 else 0;
    Projection(o.data.status, SucceededAt(kind, current, o), columns, o.revision, o, version)
  }

  predicate SameContent(e: Entry, data: Data) { e.current.Some? && e.current.value.observation.data == data }

  /** A stored projection has this revision and other content. */
  predicate Conflicts(e: Entry, o: Observation) {
    !SameContent(e, o.data) && e.current.Some? && o.revision == e.current.value.revision
  }

  /** The observation replaces the projection. */
  predicate Overwrites(e: Entry, o: Observation) {
    !SameContent(e, o.data) && (e.current.Some? ==> o.revision > e.current.value.revision)
  }

  /** The rows after one call; a conflict is rolled back. */
  function Stored(kind: string, e: Entry, o: Observation): Entry {
    if SameContent(e, o.data) || Conflicts(e, o) then e
    else if Overwrites(e, o) then Entry(Some(Projected(kind, e.current, o)), e.observations + {o})
    else e.(observations := e.observations + {o})
  }

  function StoredIn(entries: Entries, key: Key, o: Observation): Entries {
    if SameContent(EntryOf(entries, key), o.data) || Conflicts(EntryOf(entries, key), o) then entries
    else entries[key := Stored(key.kind, EntryOf(entries, key), o)]
  }

  /** The rows that a conflicting call leaves behind when nothing takes them back. */
  function Observed(entries: Entries, key: Key, o: Observation): Entries {
    var e := EntryOf(entries, key);
    entries[key := e.(observations := e.observations + {o})]
  }

  class ProjectionStore {
    var entries: Entries
    var coverage: CoverageRows

    constructor ()
      ensures entries == map[] && coverage == map[]
    {
      entries, coverage := map[], map[];
    }

    /** Leaves its writes behind when it raises; only for use inside a savepoint. */
    method Upsert(key: Key, revision: Time, data: Data) returns (r: Result<Disposition, Conflict>)
      modifies this
      ensures r.Err? <==> Conflicts(EntryOf(old(entries), key), Observation(revision, data))
      ensures r.Ok? ==> entries == StoredIn(old(entries), key, Observation(revision, data))
      ensures r.Ok? ==> coverage == old(coverage)
      ensures r.Err? ==> entries == Observed(old(entries), key, Observation(revision, data))
      ensures r.Err? ==> coverage == AllIncomplete(old(coverage))
      ensures r.Ok? ==> (r.value == Accepted <==> Overwrites(EntryOf(old(entries), key), Observation(revision, data)))
    {
      var e := EntryOf(entries, key);
      if e.current.Some? && e.current.value.observation.data == data {
        return Ok(Duplicate);
      }
      var observation := Observation(revision, data);
      entries := entries[key := e.(observations := e.observations + {observation})];
      if e.current.Some? && revision < e.current.value.revision {
        return Ok(Duplicate);
      }
      if e.current.Some? && revision == e.current.value.revision {
        coverage := AllIncomplete(coverage);
        return Err(SourceRevisionConflict);
      }
      var columns := data.columns;
      var succeededAt := data.succeededAt;
      if key.kind == "payment" && data.status == "succeeded" {
        succeededAt := if e.current.Some? && e.current.value.succeededAt.Some?
          then e.current.value.succeededAt else Some(revision);
      }
      var projection: Projection;
      if e.current.Some? {
        var c := e.current.value;
        projection := c.(status := data.status, columns := c.columns + columns);
        projection := projection.(succeededAt := if succeededAt.Some? then succeededAt else c.succeededAt);
        projection := projection.(revision := revision, observation := observation, lockVersion := c.lockVersion + 1);
      } else {
        projection := Projection(data.status, succeededAt, columns, revision, observation, 0);
      }
      entries := entries[key := Entry(Some(projection), e.observations + {observation})];
      r := Ok(Accepted);
    }

    /** A call inside a savepoint: a conflict restores the rows and the coverage. */
    method UpsertOrRollBack(key: Key, revision: Time, data: Data) returns (r: Result<Disposition, Conflict>)
      modifies this
      ensures entries == StoredIn(old(entries), key, Observation(revision, data)) && coverage == old(coverage)
      ensures r.Err? <==> Conflicts(EntryOf(old(entries), key), Observation(revision, data))
      ensures r.Ok? ==> (r.value == Accepted <==> Overwrites(EntryOf(old(entries), key), Observation(revision, data)))
    {
      var entriesBefore, coverageBefore := entries, coverage;
      r := Upsert(key, revision, data);
      if r.Err? {
        entries, coverage := entriesBefore, coverageBefore;
      }
    }
  }

  // ----- any sequence of calls for one source object -----

  function AfterCalls(kind: string, calls: seq<Observation>): Entry {
    if calls == [] then NO_ROWS
    else Stored(kind, AfterCalls(kind, calls[..|calls| - 1]), calls[|calls| - 1])
  }

  /** The projection is of the only stored observation with the greatest stored revision, and agrees with it. */
  ghost predicate Sound(e: Entry) {
    match e.current
    case None => e.observations == {}
    case Some(c) =>
      && c.observation in e.observations && c.revision == c.observation.revision
      && (forall o :: o in e.observations ==> o.revision <= c.revision)
      && (forall o :: o in e.observations && o.revision == c.revision ==> o == c.observation)
      && c.status == c.observation.data.status
      && (forall k :: k in c.observation.data.columns ==>
            k in c.columns && c.columns[k] == c.observation.data.columns[k])
  }

  lemma StoredSound(kind: string, e: Entry, o: Observation)
    requires Sound(e)
    ensures Sound(Stored(kind, e, o))
    ensures e.observations <= Stored(kind, e, o).observations
    ensures Overwrites(e, o) && e.current.Some? ==> Stored(kind, e, o).current.value.revision > e.current.value.revision
  {
  }

  lemma {:induction false} CallsSound(kind: string, calls: seq<Observation>)
    ensures Sound(AfterCalls(kind, calls))
  {
    if calls != [] {
      CallsSound(kind, calls[..|calls| - 1]);
      StoredSound(kind, AfterCalls(kind, calls[..|calls| - 1]), calls[|calls| - 1]);
    }
  }

  /** The revision of the first accepted observation of a succeeded payment. */
  function FirstSuccess(calls: seq<Observation>): Option<Time> {
    if calls == [] then None
    else
      var init, last := calls[..|calls| - 1], calls[|calls| - 1];
      if FirstSuccess(init).Some? then FirstSuccess(init)
      else if Overwrites(AfterCalls("payment", init), last) && last.data.status == "succeeded" then Some(last.revision)
      else None
  }

  /** A payment's success time is fixed by the first accepted succeeded observation. */
  lemma {:induction false} SuccessTimeIsFirst(calls: seq<Observation>)
    requires forall o :: o in calls ==> o.data.succeededAt.None?
    ensures var e := AfterCalls("payment", calls);
      (if e.current.Some? then e.current.value.succeededAt else None) == FirstSuccess(calls)
  {
    if calls != [] {
      var init, last := calls[..|calls| - 1], calls[|calls| - 1];
      assert last in calls;
      assert forall o :: o in init ==> o in calls;
      SuccessTimeIsFirst(init);
    }
  }

  /** A call that neither repeats the projected content nor conflicts with it. */
  predicate Observes(e: Entry, o: Observation) {
    e.current.Some? ==> e.current.value.observation.data != o.data && e.current.value.revision != o.revision
  }

  /**
   Stored are exactly the observations that were delivered while other content was projected, at another revision: the
   late ones too.
   */
  lemma {:induction false} ObservationsAre(kind: string, calls: seq<Observation>, o: Observation)
    ensures o in AfterCalls(kind, calls).observations <==>
              exists i :: 0 <= i < |calls| && calls[i] == o && Observes(AfterCalls(kind, calls[..i]), o)
  {
    if calls != [] {
      hide Projected, Sound;
      var init, last := calls[..|calls| - 1], calls[|calls| - 1];
      ObservationsAre(kind, init, o);
      CallsSound(kind, init);
      CallObserves(kind, AfterCalls(kind, init), last);
      forall i | 0 <= i < |init| ensures init[..i] == calls[..i] && init[i] == calls[i] {}
      if o in AfterCalls(kind, calls).observations && o !in AfterCalls(kind, init).observations {
        assert calls[|init|] == o && calls[..|init|] == init;
      }
      if i :| 0 <= i < |calls| && calls[i] == o && Observes(AfterCalls(kind, calls[..i]), o) {
        if i < |init| { assert init[i] == o && Observes(AfterCalls(kind, init[..i]), o); }
      }
    }
  }

  lemma CallObserves(kind: string, e: Entry, o: Observation)
    requires Sound(e)
    ensures Stored(kind, e, o).observations == if Observes(e, o) then e.observations + {o} else e.observations
  {
  }

  /** An overwrite keeps the columns that the new content lacks, and counts the version up; nothing else changes it. */
  lemma OverwriteKeeps(kind: string, e: Entry, o: Observation)
    ensures var t := Stored(kind, e, o);
      if e.current.Some? && !(e.current.value.observation.data != o.data && e.current.value.revision < o.revision)
      then t.current == e.current
      else
        && t.current.Some? && t.current.value.observation == o && t.current.value.revision == o.revision
        && (kind != "payment" || o.data.status != "succeeded" ==>
              t.current.value.succeededAt
                == if o.data.succeededAt.Some? || e.current.None? then o.data.succeededAt
                   else e.current.value.succeededAt)
        && t.current.value.lockVersion == (if e.current.Some? then e.current.value.lockVersion + 1 else 0)
        && (e.current.Some? ==>
              forall k :: k in e.current.value.columns && k !in o.data.columns ==>
                k in t.current.value.columns && t.current.value.columns[k] == e.current.value.columns[k])
  {
  }

  /** A newer revision takes effect exactly when its content differs from what is projected. */
  lemma NewerTakesEffectIff(kind: string, e: Entry, o: Observation)
    requires Sound(e) && e.current.Some? && o.revision > e.current.value.revision
    ensures Stored(kind, e, o).current.value.revision == o.revision <==> o.data != e.current.value.observation.data
  {
  }

  // ----- what a projection reflects -----

  /** The projection has the content of an observation, or a revision that is not older. */
  predicate Reflects(e: Entry, o: Observation) {
    e.current.Some? && (e.current.value.observation.data == o.data || e.current.value.revision >= o.revision)
  }

  lemma StoredReflects(e: Entry, kind: string, o: Observation)
    requires !Conflicts(e, o)
    ensures Reflects(Stored(kind, e, o), o)
  {
  }

  /**
   What is reflected stays so, except when an observation of other content overwrites an older projection of this
   content and is itself older than what was reflected.
   */
  lemma ReflectionStaysIff(kind: string, e: Entry, o: Observation, p: Observation)
    requires Reflects(e, o)
    ensures Reflects(Stored(kind, e, p), o) <==> !(Overwrites(e, p) && p.data != o.data && p.revision < o.revision)
  {
  }

  lemma StoredInReflects(entries: Entries, key: Key, o: Observation)
    requires !Conflicts(EntryOf(entries, key), o)
    ensures Reflects(EntryOf(StoredIn(entries, key, o), key), o)
  {
    StoredReflects(EntryOf(entries, key), key.kind, o);
  }

  /** An observation that is not older, or is of another object, takes nothing back. */
  lemma StoredInKeeps(entries: Entries, key: Key, o: Observation, other: Key, p: Observation)
    requires Reflects(EntryOf(entries, key), o) && (other == key ==> o.revision <= p.revision)
    ensures Reflects(EntryOf(StoredIn(entries, other, p), key), o)
  {
    if other == key { ReflectionStaysIff(key.kind, EntryOf(entries, key), o, p); }
  }

  // ----- when the order of delivery does not matter -----

  ghost predicate SameDeliveries(a: seq<Observation>, b: seq<Observation>) { multiset(a) == multiset(b) }

  ghost predicate SameMembers(a: seq<Observation>, b: seq<Observation>) { forall o :: o in a <==> o in b }

  /** A revision names one observation, which may be delivered any number of times. */
  ghost predicate RevisionsIdentify(calls: seq<Observation>) {
    forall o, p :: o in calls && p in calls && o.revision == p.revision ==> o == p
  }

  ghost predicate IsNewest(m: Observation, calls: seq<Observation>) {
    m in calls && forall o :: o in calls ==> o.revision <= m.revision
  }

  /** The projection is of this observation. */
  predicate Projects(e: Entry, m: Observation) { e.current.Some? && e.current.value.observation == m }

  /** No other observation has the content of the newest one. */
  ghost predicate ContentIsOwn(m: Observation, calls: seq<Observation>) {
    forall o :: o in calls && o.data == m.data ==> o == m
  }

  /** Before the newest observation arrives the projection is of an older one with other content; after, it stays. */
  lemma {:induction false} OwnContentArrives(kind: string, calls: seq<Observation>, m: Observation)
    requires forall o :: o in calls && o != m ==> o.revision < m.revision && o.data != m.data
    ensures var e := AfterCalls(kind, calls);
      && Sound(e)
      && (m in calls ==> Projects(e, m))
      && (m !in calls && e.current.Some? ==> e.current.value.revision < m.revision && !SameContent(e, m.data))
  {
    CallsSound(kind, calls);
    if calls != [] {
      var init, last := calls[..|calls| - 1], calls[|calls| - 1];
      assert forall o :: o in calls <==> o in init || o == last;
      OwnContentArrives(kind, init, m);
      var e := AfterCalls(kind, init);
      if last == m && m !in init && e.current.Some? { NewerTakesEffectIff(kind, e, m); }
    }
  }

  lemma Append(kind: string, calls: seq<Observation>, o: Observation)
    ensures AfterCalls(kind, calls + [o]) == Stored(kind, AfterCalls(kind, calls), o)
  {
    assert (calls + [o])[..|calls|] == calls;
  }

  function Copies(m: Observation, n: nat): seq<Observation> { if n == 0 then [] else Copies(m, n - 1) + [m] }

  function Without(calls: seq<Observation>, m: Observation): seq<Observation> {
    if calls == [] then []
    else
      var init, last := Without(calls[..|calls| - 1], m), calls[|calls| - 1];
      if last == m then init else init + [last]
  }

  lemma {:induction false} WithoutHas(calls: seq<Observation>, m: Observation)
    ensures forall o :: o in Without(calls, m) <==> o in calls && o != m
  {
    if calls != [] {
      WithoutHas(calls[..|calls| - 1], m);
      assert calls == calls[..|calls| - 1] + [calls[|calls| - 1]];
    }
  }

  /** The calls are the copies of one observation and the others. */
  lemma {:induction false} Gathered(calls: seq<Observation>, m: Observation) returns (n: nat)
    ensures SameDeliveries(Copies(m, n) + Without(calls, m), calls)
  {
    hide SameDeliveries;
    if calls == [] {
      n := 0;
      NothingDelivered(m);
    } else {
      var init, last := calls[..|calls| - 1], calls[|calls| - 1];
      var k := Gathered(init, m);
      OneMore(Copies(m, k), Without(init, m), init, last);
      assert calls == init + [last];
      if last == m {
        n := k + 1;
        assert Copies(m, n) == Copies(m, k) + [last] && Without(calls, m) == Without(init, m);
      } else {
        n := k;
        assert Without(calls, m) == Without(init, m) + [last];
      }
    }
  }

  lemma NothingDelivered(m: Observation)
    ensures SameDeliveries(Copies(m, 0) + Without([], m), [])
  {
    assert Copies(m, 0) + Without([], m) == [];
  }

  lemma OneMore(a: seq<Observation>, b: seq<Observation>, calls: seq<Observation>, o: Observation)
    requires SameDeliveries(a + b, calls)
    ensures SameDeliveries(a + (b + [o]), calls + [o]) && SameDeliveries((a + [o]) + b, calls + [o])
  {
    assert a + (b + [o]) == (a + b) + [o];
  }

  /** While an equal content is projected, the newest observation is taken for a duplicate and not stored. */
  lemma {:induction false} CopiesIgnored(kind: string, o: Observation, m: Observation, n: nat)
    requires o != m && o.data == m.data
    ensures Projects(AfterCalls(kind, [o] + Copies(m, n)), o)
  {
    if n == 0 {
      assert [o] + Copies(m, n) == [] + [o];
      Append(kind, [], o);
    } else {
      CopiesIgnored(kind, o, m, n - 1);
      assert [o] + Copies(m, n) == ([o] + Copies(m, n - 1)) + [m];
      Append(kind, [o] + Copies(m, n - 1), m);
    }
  }

  /** What is not delivered any more is not projected any more. */
  lemma {:induction false} NeverProjected(kind: string, calls: seq<Observation>, rest: seq<Observation>, m: Observation)
    requires m !in rest && !Projects(AfterCalls(kind, calls), m)
    ensures !Projects(AfterCalls(kind, calls + rest), m)
  {
    if rest == [] {
      assert calls + rest == calls;
    } else {
      var init, last := rest[..|rest| - 1], rest[|rest| - 1];
      NeverProjected(kind, calls, init, m);
      assert calls + rest == (calls + init) + [last];
      Append(kind, calls + init, last);
    }
  }

  /** The calls with one of them moved to the front. */
  lemma Front(calls: seq<Observation>, o: Observation) returns (rest: seq<Observation>)
    requires o in calls
    ensures SameDeliveries([o] + rest, calls)
  {
    var i :| 0 <= i < |calls| && calls[i] == o;
    rest := calls[..i] + calls[i + 1..];
    assert calls == calls[..i] + [o] + calls[i + 1..];
  }

  lemma SameDeliveriesMembers(a: seq<Observation>, b: seq<Observation>)
    requires SameDeliveries(a, b)
    ensures SameMembers(a, b)
  {
    assert forall o :: o in a <==> o in multiset(a);
    assert forall o :: o in b <==> o in multiset(b);
  }

  /** An order of delivery that hides the newest observation behind an older one with its content. */
  lemma OtherOrder(kind: string, calls: seq<Observation>, o: Observation, m: Observation) returns (b: seq<Observation>)
    requires o in calls && o != m && o.data == m.data
    ensures SameDeliveries(b, calls) && !Projects(AfterCalls(kind, b), m)
  {
    var n := Gathered(calls, m);
    WithoutHas(calls, m);
    var others := Front(Without(calls, m), o);
    SameDeliveriesMembers([o] + others, Without(calls, m));
    assert forall x :: x in others ==> x in [o] + others;
    CopiesIgnored(kind, o, m, n);
    NeverProjected(kind, [o] + Copies(m, n), others, m);
    b := [o] + Copies(m, n) + others;
  }

  /**
   When a revision names one observation, the newest one is projected in the end, in whatever order the observations
   are delivered, if and only if no older observation has its content. If so, repeating deliveries makes no
   difference either.
   */
  lemma DeliveryOrderIrrelevantIff(kind: string, calls: seq<Observation>, m: Observation)
    requires RevisionsIdentify(calls) && IsNewest(m, calls)
    ensures (forall b :: SameDeliveries(b, calls) ==> Projects(AfterCalls(kind, b), m)) <==> ContentIsOwn(m, calls)
    ensures (forall b :: SameMembers(b, calls) ==> Projects(AfterCalls(kind, b), m)) <==> ContentIsOwn(m, calls)
  {
    if ContentIsOwn(m, calls) {
      forall b | SameMembers(b, calls) ensures Projects(AfterCalls(kind, b), m) { OwnContentArrives(kind, b, m); }
      forall b | SameDeliveries(b, calls) ensures SameMembers(b, calls) { SameDeliveriesMembers(b, calls); }
    } else {
      var o :| o in calls && o.data == m.data && o != m;
      var b := OtherOrder(kind, calls, o, m);
      SameDeliveriesMembers(b, calls);
    }
  }

  /**
   So delivery order matters: content that returns to an earlier value (x, then y, then x again) is projected at its
   latest revision when delivered in order, and stays at the middle revision when the last two arrive swapped.
   */
  lemma DeliveryOrderMatters(x: Data, y: Data)
    requires x != y
    ensures var a := [Observation(1, x), Observation(2, y), Observation(3, x)];
      var b := [Observation(1, x), Observation(3, x), Observation(2, y)];
      && SameDeliveries(a, b)
      && AfterCalls("order", a).current.Some? && AfterCalls("order", a).current.value.revision == 3
      && AfterCalls("order", b).current.Some? && AfterCalls("order", b).current.value.revision == 2
  {
    hide AfterCalls, Projected, SucceededAt;
    var one, two, three := Observation(1, x), Observation(2, y), Observation(3, x);
    ThreeCalls(one, two, three);
    ThreeCalls(one, three, two);
    Swapped(one, two, three);
    LatestRevision(NO_ROWS, one);
    var e := Stored("order", NO_ROWS, one);
    LatestRevision(e, two);
    LatestRevision(Stored("order", e, two), three);
    assert Stored("order", e, three) == e;
  }

  lemma ThreeCalls(a: Observation, b: Observation, c: Observation)
    ensures AfterCalls("order", [a, b, c]) == Stored("order", Stored("order", Stored("order", NO_ROWS, a), b), c)
  {
    hide Stored;
    assert [a, b, c] == ([] + [a] + [b]) + [c];
    Append("order", [], a);
    Append("order", [] + [a], b);
    Append("order", [] + [a] + [b], c);
  }

  lemma Swapped(a: Observation, b: Observation, c: Observation)
    ensures SameDeliveries([a, b, c], [a, c, b])
  {
  }

  lemma LatestRevision(e: Entry, o: Observation)
    requires Overwrites(e, o)
    ensures var c := Stored("order", e, o).current;
      c.Some? && c.value.revision == o.revision && c.value.observation == o
  {
  }
}
