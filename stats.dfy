/** `StatsCollector` of multirunner/runner.py: per-process running sums of resource
    readings and sample counts, and their per-process and pool-wide averages.

    The process inspection library is replaced by an oracle saying, for each process in one
    call of `update`, whether it can be inspected and, if so, its readings by name. Readings
    are real numbers, not floating point. */
module Stats {
  import opened Common

  type Pid = int

  /** One inspection of a process: it has gone or may not be inspected (the exception is
      swallowed), or its readings by name. */
  datatype Reading = Lost | Values(values: map<string, real>)

  /** The collector's tables: running sums per process and reading name, samples taken per
      process, the processes a handle is cached for, and the processes of `data` in the order
      they were first seen (the dictionary's iteration order). */
  datatype Tables = Tables(data: map<Pid, map<string, real>>, counts: map<Pid, nat>, cached: set<Pid>, seen: seq<Pid>)

  /** What `average_stats` returns: averages per process, or one set of averages for the pool. */
  datatype Averages = PerPid(byPid: map<Pid, map<string, real>>) | Pooled(byName: map<string, real>)

  function Get0(m: map<string, real>, k: string): real
  {
    if k in m then m[k] else 0.0
  }

  function CountIn<K>(m: map<K, nat>, k: K): nat
  {
    if k in m then m[k] else 0
  }

  /** `for k, v in info.items(): current.setdefault(k, 0); current[k] += v`. */
  function Merged(current: map<string, real>, info: map<string, real>): map<string, real>
  {
    map k | k in current.Keys + info.Keys :: Get0(current, k) + Get0(info, k)
  }

  /** `for k in keys: cts.setdefault(k, 0); cts[k] += 1`. */
  function Tally(cts: map<string, nat>, keys: set<string>): map<string, nat>
  {
    map k | k in cts.Keys + keys :: CountIn(cts, k) + (if k in keys then 1 else 0)
  }

  // ------------------------------------------------------------------ update

  /** The `setdefault` calls of `update`: a visited process gets a zero count and empty
      sums when it has none. */
  function Prepared(t: Tables, pid: Pid): (r: Tables)
    ensures pid in r.counts && pid in r.data && r.cached == t.cached
  {
    Tables(if pid in t.data then t.data else t.data[pid := map[]],
           if pid in t.counts then t.counts else t.counts[pid := 0],
           t.cached,
           if pid in t.data then t.seen else t.seen + [pid])
  }

  /** One process visited by `update`: after `Prepared`, a process without a cached handle
      gets one and yields no sample; a process with one yields a sample, which is added to its
      sums and counted, unless it cannot be inspected. */
  function Step(t: Tables, pid: Pid, r: Reading): Tables
  {
    var u := Prepared(t, pid);
    if pid !in u.cached then
      u.(cached := if r.Values? then u.cached + {pid} else u.cached)
    else if r.Lost? then
      u
    else
      u.(data := u.data[pid := Merged(u.data[pid], r.values)], counts := u.counts[pid := u.counts[pid] + 1])
  }

  /** `update(pids)`: the processes visited in order. */
  function Updated(t: Tables, pids: seq<Pid>, reading: Pid -> Reading): Tables
  {
    if pids == [] then t else Step(Updated(t, pids[..|pids| - 1], reading), pids[|pids| - 1], reading(pids[|pids| - 1]))
  }

  /** The running sums of a series of samples. */
  function Total(h: seq<map<string, real>>): map<string, real>
  {
    if h == [] then map[] else Merged(Total(h[..|h| - 1]), h[|h| - 1])
  }

  /** The sum of one reading over a series of samples (a sample without it counts 0). */
  function SampleSum(h: seq<map<string, real>>, k: string): real
  {
    if h == [] then 0.0 else SampleSum(h[..|h| - 1], k) + Get0(h[|h| - 1], k)
  }

  /** The tables agree with a history of samples per process: the count is the number of
      samples and the sums are their sums. */
  ghost predicate Consistent(t: Tables, h: map<Pid, seq<map<string, real>>>)
  {
    && t.data.Keys == t.counts.Keys && t.counts.Keys == h.Keys
    && t.cached <= t.counts.Keys
    && Distinct(t.seen)
    && (forall i :: 0 <= i < |t.seen| ==> t.seen[i] in t.data)
    && (forall p :: p in t.data ==> p in t.seen)
    && (forall p :: p in t.counts ==> t.counts[p] == |h[p]| && t.data[p] == Total(h[p]))
  }

  /** The history after `Step`: one more sample exactly when one is taken. */
  function HistoryStep(h: map<Pid, seq<map<string, real>>>, t: Tables, pid: Pid, r: Reading)
    : map<Pid, seq<map<string, real>>>
  {
    var past := if pid in h then h[pid] else [];
    if pid in t.cached && r.Values? then h[pid := past + [r.values]] else h[pid := past]
  }

  lemma StepConsistent(t: Tables, h: map<Pid, seq<map<string, real>>>, pid: Pid, r: Reading)
    requires Consistent(t, h)
    ensures Consistent(Step(t, pid, r), HistoryStep(h, t, pid, r))
  {
    var u := Prepared(t, pid);
    var past := if pid in h then h[pid] else [];
    PreparedConsistent(t, h, pid);
    if pid in t.cached && r.Values? {
      SampleConsistent(u, h[pid := past], pid, r.values);
    }
  }

  lemma PreparedConsistent(t: Tables, h: map<Pid, seq<map<string, real>>>, pid: Pid)
    requires Consistent(t, h)
    ensures Consistent(Prepared(t, pid), h[pid := if pid in h then h[pid] else []])
  {
    if pid !in t.data {
      DistinctAppend(t.seen, pid);
    }
  }

  /** Adding a sample to a process's sums and count keeps the tables in step with the
      history extended by that sample. */
  lemma SampleConsistent(u: Tables, h: map<Pid, seq<map<string, real>>>, pid: Pid, v: map<string, real>)
    requires Consistent(u, h) && pid in u.counts
    ensures Consistent(u.(data := u.data[pid := Merged(u.data[pid], v)], counts := u.counts[pid := u.counts[pid] + 1]),
                       h[pid := h[pid] + [v]])
  {
    var past := h[pid];
    assert (past + [v])[..|past|] == past;
  }

  lemma DistinctAppend<T>(s: seq<T>, x: T)
    requires Distinct(s) && x !in s
    ensures Distinct(s + [x])
  {
    var s2 := s + [x];
    forall i, j | 0 <= i < j < |s2| ensures s2[i] != s2[j] {
      if j == |s| {
        assert s2[i] == s[i];
      }
    }
  }

  /** A sample's readings are added to the sums: the running sum of a reading is the sum of
      that reading over all samples taken. */
  lemma {:induction false} TotalIsSampleSum(h: seq<map<string, real>>, k: string)
    ensures Get0(Total(h), k) == SampleSum(h, k)
  {
    if h != [] {
      TotalIsSampleSum(h[..|h| - 1], k);
    }
  }

  /** The count of a process grows by the number of samples taken in one `update`: every
      visit while a handle is cached, none when the process cannot be inspected, and the
      first visit of a process without a handle only caches one. */
  lemma {:induction false} UpdatedCount(t: Tables, pids: seq<Pid>, reading: Pid -> Reading, pid: Pid)
    ensures CountIn(Updated(t, pids, reading).counts, pid)
            == CountIn(t.counts, pid)
               + (if reading(pid).Lost? then 0
                  else if pid in t.cached then multiset(pids)[pid]
                  else if multiset(pids)[pid] == 0 then 0 else multiset(pids)[pid] - 1)
    ensures pid in Updated(t, pids, reading).cached <==> pid in t.cached || (pid in pids && reading(pid).Values?)
  {
    if pids != [] {
      var front, last := pids[..|pids| - 1], pids[|pids| - 1];
      assert pids == front + [last];
      assert multiset(pids) == multiset(front) + multiset{last};
      UpdatedCount(t, front, reading, pid);
    }
  }

  /** The first sighting of a process records no sample: a zero count and empty sums. */
  lemma FirstSighting(t: Tables, pid: Pid, r: Reading)
    requires t.cached <= t.counts.Keys && pid !in t.counts && pid !in t.data
    ensures var t2 := Step(t, pid, r); t2.counts[pid] == 0 && t2.data[pid] == map[] && t2.seen == t.seen + [pid]
  {
  }

  // ------------------------------------------------------------ averages

  /** `v2 / float(count)` for every reading of one process. */
  function Scaled(v: map<string, real>, count: nat): map<string, real>
    requires v != map[] ==> count > 0
  {
    map k | k in v :: v[k] / count as real
  }

  /** Division happens only for processes with readings, and those have samples. */
  ghost predicate Divisible(t: Tables)
  {
    forall p :: p in t.data && t.data[p] != map[] ==> CountIn(t.counts, p) > 0
  }

  /** The per-process averages. */
  function AveragesOf(t: Tables): map<Pid, map<string, real>>
    requires Divisible(t)
  {
    map p | p in t.data :: Scaled(t.data[p], CountIn(t.counts, p))
  }

  lemma {:induction false} TotalEmpty(h: seq<map<string, real>>)
    requires Total(h) != map[]
    ensures h != []
  {
  }

  lemma ConsistentDivisible(t: Tables, h: map<Pid, seq<map<string, real>>>)
    requires Consistent(t, h)
    ensures Divisible(t)
  {
    forall p | p in t.data && t.data[p] != map[] ensures CountIn(t.counts, p) > 0 {
      TotalEmpty(h[p]);
    }
  }

  /** The per-process average of a reading is the arithmetic mean of that reading over the
      process's samples. */
  lemma AverageIsMean(t: Tables, h: map<Pid, seq<map<string, real>>>, p: Pid, k: string)
    requires Consistent(t, h) && p in t.data && k in t.data[p]
    ensures Divisible(t) && |h[p]| > 0
    ensures AveragesOf(t)[p][k] == SampleSum(h[p], k) / |h[p]| as real
  {
    ConsistentDivisible(t, h);
    TotalIsSampleSum(h[p], k);
  }

  /** The sums over the per-process averages of `ps`, by reading name. */
  function PoolSums(ps: seq<Pid>, avgs: map<Pid, map<string, real>>): map<string, real>
    requires forall i :: 0 <= i < |ps| ==> ps[i] in avgs
  {
    if ps == [] then map[] else Merged(PoolSums(ps[..|ps| - 1], avgs), avgs[ps[|ps| - 1]])
  }

  /** How many processes of `ps` have each reading. */
  function PoolCounts(ps: seq<Pid>, avgs: map<Pid, map<string, real>>): (r: map<string, nat>)
    requires forall i :: 0 <= i < |ps| ==> ps[i] in avgs
    ensures r.Keys == PoolSums(ps, avgs).Keys
    ensures forall k :: k in r ==> r[k] >= 1
  {
    if ps == [] then map[] else Tally(PoolCounts(ps[..|ps| - 1], avgs), avgs[ps[|ps| - 1]].Keys)
  }

  /** The pool-wide averages: for each reading, the mean over the processes that have it of
      their averages. */
  function PoolMeans(ps: seq<Pid>, avgs: map<Pid, map<string, real>>): map<string, real>
    requires forall i :: 0 <= i < |ps| ==> ps[i] in avgs
  {
    var s, c := PoolSums(ps, avgs), PoolCounts(ps, avgs);
    map k | k in s :: s[k] / c[k] as real
  }

  /** How the pooled sum and count of a reading grow with one more process. */
  lemma PoolStep(ps: seq<Pid>, avgs: map<Pid, map<string, real>>, k: string)
    requires ps != [] && forall i :: 0 <= i < |ps| ==> ps[i] in avgs
    ensures var front, a := ps[..|ps| - 1], avgs[ps[|ps| - 1]];
            && Get0(PoolSums(ps, avgs), k) == Get0(PoolSums(front, avgs), k) + Get0(a, k)
            && CountIn(PoolCounts(ps, avgs), k) == CountIn(PoolCounts(front, avgs), k) + (if k in a then 1 else 0)
  {
  }

  /** `n` copies of `x`, added up. */
  function Times(x: real, n: nat): real
  {
    if n == 0 then 0.0 else Times(x, n - 1) + x
  }

  lemma {:induction false} TimesIs(x: real, n: nat)
    ensures Times(x, n) == x * n as real
  {
    if n > 0 {
      TimesIs(x, n - 1);
      assert x * n as real == x * (n - 1) as real + x;
    }
  }

  /** Every process of `ps` has averages, and its average of reading `k`, if it has one,
      lies between `lo` and `hi`. */
  ghost predicate Bounded(ps: seq<Pid>, avgs: map<Pid, map<string, real>>, k: string, lo: real, hi: real)
  {
    forall i :: 0 <= i < |ps| ==> ps[i] in avgs && (k in avgs[ps[i]] ==> lo <= avgs[ps[i]][k] <= hi)
  }

  /** The pooled sum of a reading lies between its count times any lower and any upper
      bound of the per-process averages. */
  lemma {:induction false} PoolSumBounds(ps: seq<Pid>, avgs: map<Pid, map<string, real>>, k: string, lo: real, hi: real)
    requires Bounded(ps, avgs, k, lo, hi)
    ensures forall i :: 0 <= i < |ps| ==> ps[i] in avgs
    ensures Times(lo, CountIn(PoolCounts(ps, avgs), k)) <= Get0(PoolSums(ps, avgs), k)
                                                        <= Times(hi, CountIn(PoolCounts(ps, avgs), k))
  {
    if ps != [] {
      var front, a := ps[..|ps| - 1], avgs[ps[|ps| - 1]];
      assert Bounded(front, avgs, k, lo, hi) by {
        forall i | 0 <= i < |front| ensures front[i] == ps[i] { }
      }
      PoolSumBounds(front, avgs, k, lo, hi);
      PoolStep(ps, avgs, k);
      var c0 := CountIn(PoolCounts(front, avgs), k);
      if k in a {
        assert lo <= a[k] <= hi;
        assert Times(lo, c0 + 1) == Times(lo, c0) + lo;
        assert Times(hi, c0 + 1) == Times(hi, c0) + hi;
      }
    }
  }

  /** A quotient lies between the bounds its dividend has as multiples of the divisor. */
  lemma MeanBetween(s: real, n: nat, lo: real, hi: real)
    requires n > 0 && Times(lo, n) <= s <= Times(hi, n)
    ensures lo <= s / n as real <= hi
  {
    TimesIs(lo, n);
    TimesIs(hi, n);
    var c := n as real;
    assert s / c * c == s;
  }

  /** A pool-wide average lies between any bounds of the per-process averages it pools. */
  lemma PoolMeanBetween(ps: seq<Pid>, avgs: map<Pid, map<string, real>>, k: string, lo: real, hi: real)
    requires forall i :: 0 <= i < |ps| ==> ps[i] in avgs && (k in avgs[ps[i]] ==> lo <= avgs[ps[i]][k] <= hi)
    requires k in PoolMeans(ps, avgs)
    ensures lo <= PoolMeans(ps, avgs)[k] <= hi
  {
    PoolSumBounds(ps, avgs, k, lo, hi);
    MeanBetween(PoolSums(ps, avgs)[k], PoolCounts(ps, avgs)[k], lo, hi);
  }

  /** With one process, the pool-wide averages are its own. */
  lemma PoolMeansSingle(p: Pid, avgs: map<Pid, map<string, real>>)
    requires p in avgs
    ensures PoolMeans([p], avgs) == avgs[p]
  {
    assert [p][..0] == [];
    var m := avgs[p];
    var s, c := PoolSums([p], avgs), PoolCounts([p], avgs);
    assert s == Merged(map[], m);
    assert c == Tally(map[], m.Keys);
    assert s.Keys == m.Keys;
    forall k | k in m ensures PoolMeans([p], avgs)[k] == m[k] {
      assert s[k] == m[k] && c[k] == 1;
    }
  }

  // ------------------------------------------------------------- collector

  class StatsCollector {
    var data: map<Pid, map<string, real>>
    var counts: map<Pid, nat>
    /** The processes a handle is cached for (the `procs` dictionary). */
    var cached: set<Pid>
    /** The keys of `data` in insertion order. */
    var seen: seq<Pid>
    /** Every sample taken, per process. */
    ghost var history: map<Pid, seq<map<string, real>>>

    function Snapshot(): Tables
      reads this
    {
      Tables(data, counts, cached, seen)
    }

    ghost predicate Valid()
      reads this
    {
      Consistent(Snapshot(), history)
    }

    constructor ()
      ensures Valid() && Snapshot() == Tables(map[], map[], {}, [])
    {
      data, counts, cached, seen := map[], map[], {}, [];
      history := map[];
    }

    /** `reset()`. */
    method Reset()
      modifies this
      ensures Valid() && Snapshot() == Tables(map[], map[], {}, [])
    {
      data, counts, cached, seen := map[], map[], {}, [];
      history := map[];
    }

    /** `update(pids)`, with `reading` telling what inspecting each process yields. */
    method Update(pids: seq<Pid>, reading: Pid -> Reading)
      requires Valid()
      modifies this
      ensures Valid()
      ensures Snapshot() == Updated(old(Snapshot()), pids, reading)
    {
      var i := 0;
      while i < |pids|
        invariant i <= |pids|
        invariant Valid() && Snapshot() == Updated(old(Snapshot()), pids[..i], reading)
      {
        assert pids[..i + 1][..i] == pids[..i];
        Observe(pids[i], reading(pids[i]));
        i := i + 1;
      }
      assert pids[..|pids|] == pids;
    }

    /** The body of the loop of `update` for one process. */
    method Observe(pid: Pid, r: Reading)
      requires Valid()
      modifies this
      ensures Valid()
      ensures Snapshot() == Step(old(Snapshot()), pid, r)
    {
      StepConsistent(Snapshot(), history, pid, r);
      ghost var h2 := HistoryStep(history, Snapshot(), pid, r);
      if pid !in counts {
        counts := counts[pid := 0];
      }
      if pid !in data {
        data := data[pid := map[]];
        seen := seen + [pid];
      }
      if pid !in cached {
        if r.Values? {
          cached := cached + {pid};
        }
      } else if r.Values? {
        var current := Accumulate(data[pid], r.values);
        data := data[pid := current];
        counts := counts[pid := counts[pid] + 1];
      }
      history := h2;
    }

    /** `average_stats(per_pid)`: the per-process averages, or the pool-wide averages
        of those. */
    method AverageStats(perPid: bool) returns (r: Averages)
      requires Valid()
      ensures Divisible(Snapshot())
      ensures perPid ==> r == PerPid(AveragesOf(Snapshot()))
      ensures !perPid ==> r == Pooled(PoolMeans(seen, AveragesOf(Snapshot())))
    {
      ConsistentDivisible(Snapshot(), history);
      var out := PerPidAverages();
      if perPid {
        return PerPid(out);
      }
      var means := PoolAverages(seen, out);
      return Pooled(means);
    }

    /** The first loop of `average_stats`: every process's averages. */
    method PerPidAverages() returns (out: map<Pid, map<string, real>>)
      requires Valid()
      ensures Divisible(Snapshot()) && out == AveragesOf(Snapshot())
    {
      ConsistentDivisible(Snapshot(), history);
      out := map[];
      var i := 0;
      while i < |seen|
        invariant i <= |seen|
        invariant forall j :: 0 <= j < i ==> seen[j] in out
        invariant out.Keys <= data.Keys
        invariant forall p :: p in out ==> out[p] == Scaled(data[p], CountIn(counts, p))
      {
        var p := seen[i];
        var scaled := Scale(data[p], counts[p]);
        out := out[p := scaled];
        i := i + 1;
      }
      forall p | p in data ensures p in out {
        var j :| 0 <= j < |seen| && seen[j] == p;
      }
      var avgs := AveragesOf(Snapshot());
      assert out.Keys == avgs.Keys;
      forall p | p in out ensures out[p] == avgs[p] {
        assert avgs[p] == Scaled(data[p], CountIn(counts, p));
      }
    }
  }

  /** The pooled part of `average_stats`: the averages of `ps` summed and counted by
      reading name, then divided. */
  method PoolAverages(ps: seq<Pid>, avgs: map<Pid, map<string, real>>) returns (r: map<string, real>)
    requires forall i :: 0 <= i < |ps| ==> ps[i] in avgs
    ensures r == PoolMeans(ps, avgs)
  {
    var final: map<string, real> := map[];
    var cts: map<string, nat> := map[];
    var i := 0;
    while i < |ps|
      invariant i <= |ps|
      invariant final == PoolSums(ps[..i], avgs) && cts == PoolCounts(ps[..i], avgs)
    {
      assert ps[..i + 1][..i] == ps[..i];
      final, cts := AddAverages(final, cts, avgs[ps[i]]);
      i := i + 1;
    }
    assert ps[..|ps|] == ps;
    r := Divide(final, cts);
  }

  /** The inner loop of `update`: adds one sample's readings to the sums. */
  method Accumulate(current: map<string, real>, info: map<string, real>) returns (r: map<string, real>)
    ensures r == Merged(current, info)
  {
    r := current;
    var rest := info.Keys;
    while rest != {}
      invariant SummedSoFar(current, r, info, rest)
      decreases rest
    {
      var k :| k in rest;
      var base := if k in r then r[k] else 0.0;
      SummedStep(current, r, info, rest, k, r[k := base + info[k]]);
      r := r[k := base + info[k]];
      rest := rest - {k};
    }
    SummedDone(current, r, info);
  }

  /** The readings of `info` outside `rest` have been added to `base`. */
  ghost predicate SummedSoFar(base: map<string, real>, r: map<string, real>, info: map<string, real>, rest: set<string>)
  {
    && rest <= info.Keys
    && r.Keys == base.Keys + (info.Keys - rest)
    && forall k :: k in r ==> r[k] == Get0(base, k) + (if k in info && k !in rest then info[k] else 0.0)
  }

  lemma SummedStep(base: map<string, real>, r: map<string, real>, info: map<string, real>, rest: set<string>,
                   k: string, r2: map<string, real>)
    requires SummedSoFar(base, r, info, rest) && k in rest
    requires r2 == r[k := (if k in r then r[k] else 0.0) + info[k]]
    ensures SummedSoFar(base, r2, info, rest - {k})
  {
  }

  lemma SummedDone(base: map<string, real>, r: map<string, real>, info: map<string, real>)
    requires SummedSoFar(base, r, info, {})
    ensures r == Merged(base, info)
  {
  }

  /** The names in `keys` outside `rest` have been counted once more in `base`. */
  ghost predicate TalliedSoFar(base: map<string, nat>, r: map<string, nat>, keys: set<string>, rest: set<string>)
  {
    && rest <= keys
    && r.Keys == base.Keys + (keys - rest)
    && forall k :: k in r ==> r[k] == CountIn(base, k) + (if k in keys && k !in rest then 1 else 0)
  }

  lemma TalliedStep(base: map<string, nat>, r: map<string, nat>, keys: set<string>, rest: set<string>,
                    k: string, r2: map<string, nat>)
    requires TalliedSoFar(base, r, keys, rest) && k in rest
    requires r2 == r[k := (if k in r then r[k] else 0) + 1]
    ensures TalliedSoFar(base, r2, keys, rest - {k})
  {
  }

  lemma TalliedDone(base: map<string, nat>, r: map<string, nat>, keys: set<string>)
    requires TalliedSoFar(base, r, keys, {})
    ensures r == Tally(base, keys)
  {
  }

  /** The inner loop of the first part of `average_stats`: one process's averages. */
  method Scale(v: map<string, real>, count: nat) returns (r: map<string, real>)
    requires v != map[] ==> count > 0
    ensures r == Scaled(v, count)
  {
    r := map[];
    var rest := v.Keys;
    while rest != {}
      invariant rest <= v.Keys
      invariant r.Keys == v.Keys - rest
      invariant forall k :: k in r ==> r[k] == v[k] / count as real
      decreases rest
    {
      var k :| k in rest;
      r := r[k := v[k] / count as real];
      rest := rest - {k};
    }
  }

  /** The inner loop of the pooled part of `average_stats`: one process's averages are
      added to the sums and counted. */
  method AddAverages(final: map<string, real>, cts: map<string, nat>, avg: map<string, real>)
    returns (final2: map<string, real>, cts2: map<string, nat>)
    ensures final2 == Merged(final, avg) && cts2 == Tally(cts, avg.Keys)
  {
    final2, cts2 := final, cts;
    var rest := avg.Keys;
    while rest != {}
      invariant SummedSoFar(final, final2, avg, rest) && TalliedSoFar(cts, cts2, avg.Keys, rest)
      decreases rest
    {
      var k :| k in rest;
      var base := if k in final2 then final2[k] else 0.0;
      SummedStep(final, final2, avg, rest, k, final2[k := base + avg[k]]);
      final2 := final2[k := base + avg[k]];
      var n := if k in cts2 then cts2[k] else 0;
      TalliedStep(cts, cts2, avg.Keys, rest, k, cts2[k := n + 1]);
      cts2 := cts2[k := n + 1];
      rest := rest - {k};
    }
    SummedDone(final, final2, avg);
    TalliedDone(cts, cts2, avg.Keys);
  }

  /** The last loop of `average_stats`: each pooled sum divided by its count. */
  method Divide(sums: map<string, real>, cts: map<string, nat>) returns (r: map<string, real>)
    requires cts.Keys == sums.Keys && forall k :: k in cts ==> cts[k] >= 1
    ensures r == map k | k in sums :: sums[k] / cts[k] as real
  {
    r := sums;
    var rest := sums.Keys;
    while rest != {}
      invariant rest <= sums.Keys && r.Keys == sums.Keys
      invariant forall k :: k in r && k !in rest ==> r[k] == sums[k] / cts[k] as real
      invariant forall k :: k in rest ==> r[k] == sums[k]
      decreases rest
    {
      var k :| k in rest;
      r := r[k := r[k] / cts[k] as real];
      rest := rest - {k};
    }
  }
}
