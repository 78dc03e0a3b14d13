/** Cross-job aggregation of resource records by name (`create_avg_on_resources`).
    Despite its name the operation sums: one record per distinct name, in the
    order the names are first seen, holding the sums of usage, requested and
    allocated over every occurrence of that name, and no warning level. */
module Aggregation {
  import opened Numbers
  import opened Resources

  // ---------------------------------------------------------------------------
  // Sequences of names

  function Names(rs: seq<Rec>): (ns: seq<string>)
    ensures |ns| == |rs| && forall i :: 0 <= i < |rs| ==> ns[i] == rs[i].name
  {
    seq(|rs|, i requires 0 <= i < |rs| => rs[i].name)
  }

  predicate Distinct(ns: seq<string>) {
    forall i, j :: 0 <= i < j < |ns| ==> ns[i] != ns[j]
  }

  /** The position of the first occurrence of n in ns. */
  function FirstIndex(ns: seq<string>, n: string): (i: nat)
    requires n in ns
    ensures i < |ns| && ns[i] == n && n !in ns[..i]
  {
    if ns[0] == n then 0
    else
      assert ns == [ns[0]] + ns[1..];
      var k := FirstIndex(ns[1..], n);
      assert ns[..k + 1] == [ns[0]] + ns[1..][..k];
      k + 1
  }

  lemma FirstIndexUnique(ns: seq<string>, n: string, i: nat)
    requires i < |ns| && ns[i] == n && n !in ns[..i]
    ensures FirstIndex(ns, n) == i
  {
  }

  lemma FirstIndexAppend(ns: seq<string>, x: string, n: string)
    requires n in ns
    ensures n in ns + [x] && FirstIndex(ns + [x], n) == FirstIndex(ns, n)
  {
    var k := FirstIndex(ns, n);
    assert (ns + [x])[..k] == ns[..k];
    FirstIndexUnique(ns + [x], n, k);
  }

  lemma FirstIndexOfDistinct(ns: seq<string>, p: nat)
    requires Distinct(ns) && p < |ns|
    ensures FirstIndex(ns, ns[p]) == p
  {
    FirstIndexUnique(ns, ns[p], p);
  }

  // ---------------------------------------------------------------------------
  // The aggregation as the source computes it: one step per record

  /** `acc += r` on the three quantities. */
  function AddInto(acc: Rec, r: Rec): (a: Rec)
    ensures a.name == acc.name && a.warningLevel == acc.warningLevel
    ensures forall q :: Get(a, q) == Add(Get(acc, q), Get(r, q))
  {
    acc.(usage := Add(acc.usage, r.usage), requested := Add(acc.requested, r.requested),
         allocation := Add(acc.allocation, r.allocation))
  }

  /** One iteration of the inner loop: add r into the accumulator of its name,
      or append a fresh, unclassified accumulator when the name is new. */
  function Absorb(acc: seq<Rec>, r: Rec): seq<Rec>
  {
    if r.name in Names(acc) then
      var k := FirstIndex(Names(acc), r.name);
      acc[k := AddInto(acc[k], r)]
    else
      acc + [Unclassified(r)]
  }

  /** Absorbing a record adds an accumulator only for a new name, and leaves
      every accumulator of another name as it was. */
  lemma AbsorbKeepsOthers(acc: seq<Rec>, r: Rec)
    ensures |Absorb(acc, r)| == if r.name in Names(acc) then |acc| else |acc| + 1
    ensures forall p :: 0 <= p < |acc| && acc[p].name != r.name ==> Absorb(acc, r)[p] == acc[p]
  {
  }

  /** Absorbing a record keeps the names in order, and appends its name when
      it is new. */
  lemma AbsorbNames(acc: seq<Rec>, r: Rec)
    ensures Names(Absorb(acc, r)) == if r.name in Names(acc) then Names(acc) else Names(acc) + [r.name]
  {
  }

  /** The accumulators after the records rs, in order. */
  function Aggregate(rs: seq<Rec>): seq<Rec>
  {
    if rs == [] then [] else Absorb(Aggregate(rs[..|rs| - 1]), rs[|rs| - 1])
  }

  /** There are never more accumulators than records. */
  lemma {:induction false} AggregateNoLonger(rs: seq<Rec>)
    ensures |Aggregate(rs)| <= |rs|
  {
    if rs != [] {
      AggregateNoLonger(rs[..|rs| - 1]);
      AbsorbKeepsOthers(Aggregate(rs[..|rs| - 1]), rs[|rs| - 1]);
    }
  }

  /** The records of all jobs, in job order and, within a job, in record order. */
  function Flatten<T>(jobs: seq<seq<T>>): seq<T> {
    if jobs == [] then [] else Flatten(jobs[..|jobs| - 1]) + jobs[|jobs| - 1]
  }

  // ---------------------------------------------------------------------------
  // A reference definition: per-name totals

  datatype Quantity = UsageQ | RequestedQ | AllocationQ

  function Get(r: Rec, q: Quantity): Num {
    match q
    case UsageQ => r.usage
    case RequestedQ => r.requested
    case AllocationQ => r.allocation
  }

  /** The sum of quantity q over every record named n (0 when there is none). */
  function Total(rs: seq<Rec>, n: string, q: Quantity): Num {
    if rs == [] then Val(0.0)
    else if rs[|rs| - 1].name == n then Add(Total(rs[..|rs| - 1], n, q), Get(rs[|rs| - 1], q))
    else Total(rs[..|rs| - 1], n, q)
  }

  /** The record the aggregation should produce for name n. */
  function Totals(rs: seq<Rec>, n: string): Rec {
    Rec(n, Total(rs, n, UsageQ), Total(rs, n, RequestedQ), Total(rs, n, AllocationQ), None)
  }

  lemma {:induction false} TotalAbsent(rs: seq<Rec>, n: string, q: Quantity)
    requires n !in Names(rs)
    ensures Total(rs, n, q) == Val(0.0)
  {
    if rs != [] {
      assert Names(rs[..|rs| - 1]) == Names(rs)[..|rs| - 1];
      TotalAbsent(rs[..|rs| - 1], n, q);
    }
  }

  /** Totals over a concatenation add up. */
  lemma {:induction false} TotalAppend(a: seq<Rec>, b: seq<Rec>, n: string, q: Quantity)
    ensures Total(a + b, n, q) == Add(Total(a, n, q), Total(b, n, q))
  {
    if b == [] {
      assert a + b == a;
    } else {
      var b' := b[..|b| - 1];
      assert (a + b)[..|a + b| - 1] == a + b';
      TotalAppend(a, b', n, q);
    }
  }

  /** Taking one record out of the middle and adding it last changes no total. */
  lemma TotalMoveLast(u: seq<Rec>, x: Rec, v: seq<Rec>, n: string, q: Quantity)
    ensures Total(u + [x] + v, n, q) == Add(Total(u + v, n, q), Total([x], n, q))
  {
    TotalAppend(u + [x], v, n, q);
    TotalAppend(u, [x], n, q);
    TotalAppend(u, v, n, q);
    AddAssociates(Total(u, n, q), Total([x], n, q), Total(v, n, q));
    AddCommutes(Total([x], n, q), Total(v, n, q));
    AddAssociates(Total(u, n, q), Total(v, n, q), Total([x], n, q));
  }

  lemma MultisetRemove(s': seq<Rec>, x: Rec, t: seq<Rec>, i: nat)
    requires i < |t| && t[i] == x
    requires multiset(s' + [x]) == multiset(t)
    ensures t == t[..i] + [x] + t[i + 1..]
    ensures multiset(s') == multiset(t[..i] + t[i + 1..])
  {
    var u, v := t[..i], t[i + 1..];
    assert t == u + [x] + v;
    assert multiset(s' + [x]) == multiset(s') + multiset([x]);
    assert multiset(t) == multiset(u + v) + multiset([x]) by {
      assert multiset(t) == multiset(u) + multiset([x]) + multiset(v);
      assert multiset(u + v) == multiset(u) + multiset(v);
    }
    assert multiset(s') == multiset(s' + [x]) - multiset([x]);
    assert multiset(u + v) == multiset(t) - multiset([x]);
  }

  /** Totals do not depend on the order of the records. */
  lemma {:induction false} TotalPermutation(s: seq<Rec>, t: seq<Rec>, n: string, q: Quantity)
    requires multiset(s) == multiset(t)
    ensures Total(s, n, q) == Total(t, n, q)
    decreases |s|
  {
    if s == [] {
      assert |t| == |multiset(t)| == 0;
    } else {
      var x, s' := s[|s| - 1], s[..|s| - 1];
      assert s == s' + [x];
      assert x in multiset(t);
      var i :| 0 <= i < |t| && t[i] == x;
      MultisetRemove(s', x, t, i);
      TotalPermutation(s', t[..i] + t[i + 1..], n, q);
      TotalAppend(s', [x], n, q);
      TotalMoveLast(t[..i], x, t[i + 1..], n, q);
    }
  }

  // ---------------------------------------------------------------------------
  // The aggregation against the reference definition

  lemma NamesSnoc(rs: seq<Rec>)
    requires rs != []
    ensures Names(rs) == Names(rs[..|rs| - 1]) + [rs[|rs| - 1].name]
  {
  }

  lemma {:induction false} AggregateNameSet(rs: seq<Rec>)
    ensures Distinct(Names(Aggregate(rs)))
    ensures forall n :: n in Names(Aggregate(rs)) <==> n in Names(rs)
  {
    if rs != [] {
      var pre, x := rs[..|rs| - 1], rs[|rs| - 1];
      var a' := Aggregate(pre);
      AggregateNameSet(pre);
      assert Aggregate(rs) == Absorb(a', x);
      AbsorbNames(Aggregate(pre), x);
      NamesSnoc(rs);
      if x.name !in Names(a') {
        assert x.name !in Names(pre);
      }
    }
  }

  /** Every name of ns occurs in ms, and ns lists them in the order of their
      first occurrence in ms. */
  predicate InFirstSeenOrder(ns: seq<string>, ms: seq<string>) {
    (forall p :: 0 <= p < |ns| ==> ns[p] in ms) &&
    forall p, q :: 0 <= p < q < |ns| ==> FirstIndex(ms, ns[p]) < FirstIndex(ms, ns[q])
  }

  /** Seeing one more name keeps the order: a known name changes nothing, a new
      one goes last. */
  lemma FirstSeenOrderStep(ns: seq<string>, ms: seq<string>, x: string)
    requires InFirstSeenOrder(ns, ms)
    requires forall n :: n in ns <==> n in ms
    ensures InFirstSeenOrder(if x in ns then ns else ns + [x], ms + [x])
  {
    var ns' := if x in ns then ns else ns + [x];
    forall p | 0 <= p < |ns|
      ensures FirstIndex(ms + [x], ns[p]) == FirstIndex(ms, ns[p])
    {
      FirstIndexAppend(ms, x, ns[p]);
    }
    if x !in ns {
      assert (ms + [x])[..|ms|] == ms;
      FirstIndexUnique(ms + [x], x, |ms|);
      assert forall p :: 0 <= p < |ns| ==> FirstIndex(ms, ns[p]) < |ms|;
    }
  }

  /** The output names appear in the order the input first mentions them. */
  lemma {:induction false} AggregateOrder(rs: seq<Rec>)
    ensures InFirstSeenOrder(Names(Aggregate(rs)), Names(rs))
  {
    if rs != [] {
      var pre, x := rs[..|rs| - 1], rs[|rs| - 1];
      AggregateOrder(pre);
      AggregateNameSet(pre);
      assert Aggregate(rs) == Absorb(Aggregate(pre), x);
      AbsorbNames(Aggregate(pre), x);
      NamesSnoc(rs);
      FirstSeenOrderStep(Names(Aggregate(pre)), Names(pre), x.name);
    }
  }

  /** Every output record is the per-name total of the input. */
  lemma {:induction false} AggregateTotals(rs: seq<Rec>)
    ensures forall p :: 0 <= p < |Aggregate(rs)| ==> Aggregate(rs)[p] == Totals(rs, Aggregate(rs)[p].name)
  {
    if rs != [] {
      var pre, x := rs[..|rs| - 1], rs[|rs| - 1];
      var a' := Aggregate(pre);
      AggregateTotals(pre);
      AggregateNameSet(pre);
      var a := Aggregate(rs);
      AbsorbKeepsOthers(a', x);
      forall p | 0 <= p < |a|
        ensures a[p] == Totals(rs, a[p].name)
      {
        if x.name in Names(a') {
          var k := FirstIndex(Names(a'), x.name);
          if p != k {
            assert a[p] == a'[p];
            assert a'[p].name != x.name by { FirstIndexOfDistinct(Names(a'), p); }
          }
        } else if p == |a'| {
          TotalAbsent(pre, x.name, UsageQ);
          TotalAbsent(pre, x.name, RequestedQ);
          TotalAbsent(pre, x.name, AllocationQ);
        } else {
          assert a'[p].name in Names(a');
        }
      }
    }
  }

  /** Exactly one record per distinct name, in first-seen order, each carrying
      the sums over every occurrence of its name and no warning level. */
  lemma AggregateCorrect(rs: seq<Rec>)
    ensures Distinct(Names(Aggregate(rs)))
    ensures forall n :: n in Names(Aggregate(rs)) <==> n in Names(rs)
    ensures InFirstSeenOrder(Names(Aggregate(rs)), Names(rs))
    ensures forall p :: 0 <= p < |Aggregate(rs)| ==>
              Aggregate(rs)[p] == Totals(rs, Aggregate(rs)[p].name) && Aggregate(rs)[p].warningLevel == None
  {
    AggregateNameSet(rs);
    AggregateOrder(rs);
    AggregateTotals(rs);
  }

  /** The output, as a set of records, does not depend on the order of the
      jobs nor on the order of the records within a job. */
  lemma AggregateOrderIndependent(s: seq<Rec>, t: seq<Rec>)
    requires multiset(s) == multiset(t)
    ensures forall x :: x in Aggregate(s) <==> x in Aggregate(t)
  {
    forall x
      ensures x in Aggregate(s) <==> x in Aggregate(t)
    {
      if x in Aggregate(s) {
        RecordCarriesOver(s, t, x);
      }
      if x in Aggregate(t) {
        RecordCarriesOver(t, s, x);
      }
    }
  }

  lemma NameCarriesOver(s: seq<Rec>, t: seq<Rec>, n: string)
    requires multiset(s) == multiset(t)
    requires n in Names(s)
    ensures n in Names(t)
  {
    var i :| 0 <= i < |s| && Names(s)[i] == n;
    assert s[i] in multiset(t);
    var j :| 0 <= j < |t| && t[j] == s[i];
    assert Names(t)[j] == n;
  }

  lemma RecordCarriesOver(s: seq<Rec>, t: seq<Rec>, x: Rec)
    requires multiset(s) == multiset(t)
    requires x in Aggregate(s)
    ensures x in Aggregate(t)
  {
    AggregateNameSet(s);
    AggregateNameSet(t);
    AggregateTotals(s);
    AggregateTotals(t);
    var p :| 0 <= p < |Aggregate(s)| && Aggregate(s)[p] == x;
    assert Names(Aggregate(s))[p] == x.name;
    NameCarriesOver(s, t, x.name);
    var q :| 0 <= q < |Aggregate(t)| && Names(Aggregate(t))[q] == x.name;
    TotalsPermutation(s, t, x.name);
    assert Aggregate(t)[q] == x;
  }

  lemma TotalsPermutation(s: seq<Rec>, t: seq<Rec>, n: string)
    requires multiset(s) == multiset(t)
    ensures Totals(s, n) == Totals(t, n)
  {
    TotalPermutation(s, t, n, UsageQ);
    TotalPermutation(s, t, n, RequestedQ);
    TotalPermutation(s, t, n, AllocationQ);
  }

  /** Absorbing records whose names are all known already keeps the names. */
  lemma {:induction false} AbsorbKnownKeepsNames(a: seq<Rec>, b: seq<Rec>)
    requires forall i :: 0 <= i < |b| ==> b[i].name in Names(a)
    ensures Names(Aggregate(a + b)) == Names(Aggregate(a))
  {
    if b == [] {
      assert a + b == a;
    } else {
      var b' := b[..|b| - 1];
      assert (a + b)[..|a + b| - 1] == a + b';
      AbsorbKnownKeepsNames(a, b');
      AggregateNameSet(a);
      AggregateNameSet(a + b');
    }
  }

  /** Aggregating a list of records together with itself doubles every sum. */
  lemma AggregateTwiceDoubles(rs: seq<Rec>)
    ensures |Aggregate(rs + rs)| == |Aggregate(rs)|
    ensures forall p :: 0 <= p < |Aggregate(rs)| ==>
              var once, twice := Aggregate(rs)[p], Aggregate(rs + rs)[p];
              twice.name == once.name &&
              twice.usage == Add(once.usage, once.usage) &&
              twice.requested == Add(once.requested, once.requested) &&
              twice.allocation == Add(once.allocation, once.allocation)
  {
    AbsorbKnownKeepsNames(rs, rs);
    AggregateTotals(rs);
    AggregateTotals(rs + rs);
    forall p | 0 <= p < |Aggregate(rs)|
      ensures Aggregate(rs + rs)[p].name == Aggregate(rs)[p].name
    {
      assert Names(Aggregate(rs + rs))[p] == Names(Aggregate(rs))[p];
    }
    forall n, q {
      TotalAppend(rs, rs, n, q);
    }
  }

  /** No records at all, or only jobs without records, give no output. */
  lemma {:induction false} EmptyJobsGiveNothing(jobs: seq<seq<Rec>>)
    requires forall j :: 0 <= j < |jobs| ==> jobs[j] == []
    ensures Flatten(jobs) == [] && Aggregate(Flatten(jobs)) == []
  {
    if jobs != [] {
      EmptyJobsGiveNothing(jobs[..|jobs| - 1]);
    }
  }

  // ---------------------------------------------------------------------------
  // The imperative aggregation over Resource objects

  /** The values of a list of resources. */
  function Snapshots(rs: seq<Resource>): (vs: seq<Rec>)
    reads rs
    ensures |vs| == |rs| && forall i :: 0 <= i < |rs| ==> vs[i] == rs[i].Snapshot()
  {
    if rs == [] then [] else Snapshots(rs[..|rs| - 1]) + [rs[|rs| - 1].Snapshot()]
  }

  /** The values of the resources of every job. */
  function JobSnapshots(jobs: seq<seq<Resource>>): (vs: seq<seq<Rec>>)
    reads set r | r in Flatten(jobs)
    ensures |vs| == |jobs| && forall j :: 0 <= j < |jobs| ==> vs[j] == Snapshots(jobs[j])
  {
    if jobs == [] then []
    else
      var pre, last := jobs[..|jobs| - 1], jobs[|jobs| - 1];
      assert Flatten(jobs) == Flatten(pre) + last;
      assert forall r :: r in Flatten(pre) ==> r in Flatten(jobs);
      JobSnapshots(pre) + [Snapshots(last)]
  }

  /** The name cache is a dictionary in insertion order: `keys` lists its keys
      as inserted, and the accumulator of keys[p] holds the value acc[p]. */
  ghost predicate CacheHolds(cache: map<string, Resource>, keys: seq<string>, acc: seq<Rec>)
    reads cache.Values
  {
    |keys| == |acc| && Distinct(keys) &&
    (forall p :: 0 <= p < |keys| ==> keys[p] in cache && keys[p] == acc[p].name) &&
    (forall p :: 0 <= p < |keys| ==> cache[keys[p]].Snapshot() == acc[p]) &&
    (forall k :: k in cache ==> k in keys)
  }

  lemma AggregateSnoc(done: seq<Rec>, x: Rec)
    ensures Aggregate(done + [x]) == Absorb(Aggregate(done), x)
  {
    assert (done + [x])[..|done|] == done;
  }

  lemma PrefixSnoc<T>(s: seq<T>, t: seq<T>, i: nat)
    requires i < |t|
    ensures s + t[..i + 1] == (s + t[..i]) + [t[i]]
  {
    assert t[..i + 1] == t[..i] + [t[i]];
  }

  lemma FlattenSnoc(jobs: seq<seq<Rec>>, j: nat)
    requires j < |jobs|
    ensures Flatten(jobs[..j + 1]) == Flatten(jobs[..j]) + jobs[j]
  {
    assert jobs[..j + 1][..j] == jobs[..j];
  }

  /** `list(res_cache.values())`: the accumulators in key-insertion order. */
  function ValuesInOrder(cache: map<string, Resource>, keys: seq<string>): (vs: seq<Resource>)
    requires forall p :: 0 <= p < |keys| ==> keys[p] in cache
    ensures |vs| == |keys| && forall p :: 0 <= p < |keys| ==> vs[p] == cache[keys[p]]
  {
    seq(|keys|, p requires 0 <= p < |keys| => cache[keys[p]])
  }

  /** The accumulators hold the aggregation, each in its own object. */
  lemma CacheValues(cache: map<string, Resource>, keys: seq<string>, acc: seq<Rec>)
    requires CacheHolds(cache, keys, acc)
    ensures Snapshots(ValuesInOrder(cache, keys)) == acc
    ensures forall p, q :: 0 <= p < q < |keys| ==> ValuesInOrder(cache, keys)[p] != ValuesInOrder(cache, keys)[q]
  {
    var vs := ValuesInOrder(cache, keys);
  }

  /** `res_cache[name].usage += …` and so on: add the resource into the
      accumulator at position k of the cache, which is a different object. */
  method AddKnown(cache: map<string, Resource>, keys: seq<string>, k: nat, resource: Resource, ghost spec: seq<Rec>)
    requires CacheHolds(cache, keys, spec)
    requires k < |keys| && keys[k] == resource.name && cache[keys[k]] != resource
    modifies cache[keys[k]]
    ensures CacheHolds(cache, keys, spec[k := AddInto(spec[k], old(resource.Snapshot()))])
    ensures resource.Snapshot() == old(resource.Snapshot())
  {
    var acc := cache[keys[k]];
    acc.usage, acc.requested, acc.allocation :=
      Add(acc.usage, resource.usage), Add(acc.requested, resource.requested), Add(acc.allocation, resource.allocation);
  }

  /** `res_cache[name] = Resource(…)`: a fresh, unclassified accumulator for a
      name the cache does not hold yet, inserted last. */
  method InsertNew(cache: map<string, Resource>, keys: seq<string>, resource: Resource, ghost spec: seq<Rec>)
    returns (cache': map<string, Resource>, keys': seq<string>)
    requires CacheHolds(cache, keys, spec) && resource.name !in keys
    ensures CacheHolds(cache', keys', spec + [Unclassified(resource.Snapshot())])
    ensures keys' == keys + [resource.name] && resource.name in cache'
    ensures cache' == cache[resource.name := cache'[resource.name]] && fresh(cache'[resource.name])
  {
    var acc := new Resource(resource.name, resource.usage, resource.requested, resource.allocation);
    cache' := cache[resource.name := acc];
    keys' := keys + [resource.name];
  }

  /** The body of the inner loop: add the resource into the accumulator of its
      name, or insert a fresh accumulator for a new name. Only accumulators
      change; the resource itself does not. */
  method AddToCache(cache: map<string, Resource>, keys: seq<string>, resource: Resource, ghost spec: seq<Rec>)
    returns (cache': map<string, Resource>, keys': seq<string>)
    requires CacheHolds(cache, keys, spec)
    requires forall k :: k in cache ==> cache[k] != resource
    modifies cache.Values
    ensures CacheHolds(cache', keys', Absorb(spec, old(resource.Snapshot())))
    ensures resource.Snapshot() == old(resource.Snapshot())
    ensures forall k :: k in cache' ==> (k in cache && cache'[k] == cache[k]) || fresh(cache'[k])
  {
    ghost var x := resource.Snapshot();
    assert Names(spec) == keys;
    if resource.name in cache {
      var k := FirstIndex(keys, resource.name);
      AddKnown(cache, keys, k, resource, spec);
      assert Absorb(spec, x) == spec[k := AddInto(spec[k], x)];
      cache', keys' := cache, keys;
    } else {
      cache', keys' := InsertNew(cache, keys, resource, spec);
      assert Absorb(spec, x) == spec + [Unclassified(x)];
    }
  }

  /** The inner loop: add the resources of one job in order. */
  method AddJobToCache(cache: map<string, Resource>, keys: seq<string>, job: seq<Resource>, ghost spec: seq<Rec>)
    returns (cache': map<string, Resource>, keys': seq<string>)
    requires CacheHolds(cache, keys, Aggregate(spec))
    requires forall k :: k in cache ==> cache[k] !in job
    modifies cache.Values
    ensures CacheHolds(cache', keys', Aggregate(spec + old(Snapshots(job))))
    ensures forall k :: k in cache' ==> (k in cache && cache'[k] == cache[k]) || fresh(cache'[k])
  {
    ghost var values := Snapshots(job);
    ghost var done := spec;
    cache', keys' := cache, keys;
    assert values[..0] == [];
    for i := 0 to |job|
      invariant done == spec + values[..i]
      invariant forall k :: k in cache' ==> (k in cache && cache'[k] == cache[k]) || fresh(cache'[k])
      invariant CacheHolds(cache', keys', Aggregate(done))
    {
      PrefixSnoc(spec, values, i);
      var resource := job[i];
      assert resource.Snapshot() == old(resource.Snapshot()) == values[i];
      AggregateSnoc(done, values[i]);
      cache', keys' := AddToCache(cache', keys', resource, Aggregate(done));
      done := done + [values[i]];
    }
    assert values[..|job|] == values;
  }

  /** The outer loop: the cache after every job, of fresh accumulators holding
      the aggregation of all records. */
  method BuildCache(jobs: seq<seq<Resource>>) returns (cache: map<string, Resource>, keys: seq<string>)
    ensures CacheHolds(cache, keys, Aggregate(Flatten(old(JobSnapshots(jobs)))))
    ensures forall k :: k in cache ==> fresh(cache[k])
  {
    ghost var input := JobSnapshots(jobs);
    cache, keys := map[], [];
    for j := 0 to |jobs|
      invariant forall k :: k in cache ==> fresh(cache[k])
      invariant CacheHolds(cache, keys, Aggregate(Flatten(input[..j])))
    {
      FlattenSnoc(input, j);
      assert Snapshots(jobs[j]) == input[j];
      cache, keys := AddJobToCache(cache, keys, jobs[j], Flatten(input[..j]));
    }
    assert input[..|jobs|] == input;
  }

  /** `create_avg_on_resources`: the result lists one fresh accumulator per
      distinct name, in dictionary order, holding the aggregation of all
      records. The method has no modifies clause: it changes no object that
      existed before the call, so no input record changes. */
  method CreateAvgOnResources(jobs: seq<seq<Resource>>) returns (out: seq<Resource>)
    ensures Snapshots(out) == Aggregate(Flatten(old(JobSnapshots(jobs))))
    ensures forall p :: 0 <= p < |out| ==> fresh(out[p])
    ensures forall p, q :: 0 <= p < q < |out| ==> out[p] != out[q]
  {
    var cache, keys := BuildCache(jobs);
    out := ValuesInOrder(cache, keys);
    CacheValues(cache, keys, Aggregate(Flatten(old(JobSnapshots(jobs)))));
  }
}
