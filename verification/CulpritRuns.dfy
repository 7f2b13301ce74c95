/** What the unbounded histories of the services are, told by the samples that were
    taken: of every service in the latest one, its points since it appeared or
    changed its cgroup. */
module CulpritRuns {
  import opened Basics
  import opened Episode
  import opened Rings
  import opened Services
  import opened Culprits

  /** One sample of all services. */
  datatype Batch = Batch(at: Time, samples: seq<Sample>)

  function Taken(setup: Setup, bs: seq<Batch>): map<Key, Tracked> {
    if bs == [] then map[]
    else
      var n := |bs| - 1;
      Observed(setup, Taken(setup, bs[..n]), bs[n].at, bs[n].samples)
  }

  ghost predicate AllDistinct(bs: seq<Batch>) { forall i :: 0 <= i < |bs| ==> DistinctKeys(bs[i].samples) }

  /** The batch has the service in the cgroup. */
  ghost predicate InCgroup(b: Batch, k: Key, cgroup: string) {
    exists anon :: Sample(k, cgroup, anon) in b.samples
  }

  /** The last n batches, and no more, have the service in the cgroup all along. */
  ghost predicate Since(bs: seq<Batch>, k: Key, cgroup: string, n: nat) {
    && 1 <= n <= |bs|
    && (forall j :: |bs| - n <= j < |bs| ==> InCgroup(bs[j], k, cgroup))
    && (n < |bs| ==> !InCgroup(bs[|bs| - n - 1], k, cgroup))
  }

  predicate PointOf(b: Batch, k: Key, cgroup: string, p: Point) {
    p.at == b.at && Sample(k, cgroup, p.anon) in b.samples
  }

  /** The points of the last n batches, newest first. */
  ghost predicate PointsOf(bs: seq<Batch>, k: Key, cgroup: string, n: nat, history: seq<Point>) {
    |history| == n <= |bs| && forall i :: 0 <= i < n ==> PointOf(bs[|bs| - 1 - i], k, cgroup, history[i])
  }

  /** While the guard may act on a service, or must report it as protected, its history
      goes back to when it came. */
  ghost predicate GoesBack(bs: seq<Batch>, k: Key, t: Tracked, n: nat) {
    && Since(bs, k, t.service.cgroup, n)
    && if t.service.eligible || t.service.protected then PointsOf(bs, k, t.service.cgroup, n, t.history)
       else t.history == []
  }

  /** The service is in its cgroup in the latest batch, and is judged by it. */
  ghost predicate TrackedSo(setup: Setup, bs: seq<Batch>, k: Key, t: Tracked) {
    t.service == Judge(setup.policy, k.kind, k.name, t.service.cgroup) && exists n: nat :: GoesBack(bs, k, t, n)
  }

  lemma {:induction false} OthersDiffer(samples: seq<Sample>, s: Sample)
    requires DistinctKeys(samples) && s in samples && samples[|samples| - 1] != s
    ensures samples[|samples| - 1].key != s.key
  {
    var i :| 0 <= i < |samples| && samples[i] == s;
  }

  lemma {:induction false} ObservedHas(setup: Setup, ref: map<Key, Tracked>, at: Time, samples: seq<Sample>, s: Sample)
    requires DistinctKeys(samples) && s in samples
    ensures s.key in Observed(setup, ref, at, samples)
    ensures Observed(setup, ref, at, samples)[s.key] == Sampled(setup, ref, at, s)
  {
    var n := |samples| - 1;
    if samples[n] != s {
      assert samples == samples[..n] + [samples[n]];
      OthersDiffer(samples, s);
      ObservedHas(setup, ref, at, samples[..n], s);
    }
    hide Sampled;
  }

  lemma {:induction false} SinceGrows(bs: seq<Batch>, k: Key, cgroup: string, n: nat)
    requires bs != [] && Since(bs[..|bs| - 1], k, cgroup, n) && InCgroup(bs[|bs| - 1], k, cgroup)
    ensures Since(bs, k, cgroup, n + 1)
  {
    hide InCgroup;
  }

  lemma {:induction false} PointsGrow(bs: seq<Batch>, k: Key, cgroup: string, n: nat, history: seq<Point>, p: Point)
    requires bs != [] && PointsOf(bs[..|bs| - 1], k, cgroup, n, history) && PointOf(bs[|bs| - 1], k, cgroup, p)
    ensures PointsOf(bs, k, cgroup, n + 1, [p] + history)
  {
    hide PointOf;
    var was := bs[..|bs| - 1];
    forall i | 0 <= i < n + 1 ensures PointOf(bs[|bs| - 1 - i], k, cgroup, ([p] + history)[i]) {
      if i > 0 { assert PointOf(was[|was| - 1 - (i - 1)], k, cgroup, history[i - 1]); }
    }
  }

  /** The histories after any run of samples: exactly the services of the latest one,
      each judged by its latest cgroup, with its points since it appeared or changed
      its cgroup. */
  lemma {:induction false} HistoriesAre(setup: Setup, bs: seq<Batch>, k: Key)
    requires AllDistinct(bs)
    ensures k in Taken(setup, bs) <==> bs != [] && Present(bs[|bs| - 1].samples, k)
    ensures k in Taken(setup, bs) ==> TrackedSo(setup, bs, k, Taken(setup, bs)[k])
  {
    hide TrackedSo, Sampled;
    if bs != [] {
      var n := |bs| - 1;
      var samples := bs[n].samples;
      HistoriesAre(setup, bs[..n], k);
      if Present(samples, k) {
        var i :| 0 <= i < |samples| && samples[i].key == k;
        ObservedHas(setup, Taken(setup, bs[..n]), bs[n].at, samples, samples[i]);
        NextTracked(setup, bs, samples[i]);
      }
    }
  }

  /** One more sample of a service: its history goes on in the same cgroup, and starts
      anew otherwise. */
  lemma {:induction false} NextTracked(setup: Setup, bs: seq<Batch>, s: Sample)
    requires AllDistinct(bs) && bs != [] && s in bs[|bs| - 1].samples
    requires var (was, ref) := (bs[..|bs| - 1], Taken(setup, bs[..|bs| - 1]));
             && (s.key in ref <==> was != [] && Present(was[|was| - 1].samples, s.key))
             && (s.key in ref ==> TrackedSo(setup, was, s.key, ref[s.key]))
    ensures TrackedSo(setup, bs, s.key, Sampled(setup, Taken(setup, bs[..|bs| - 1]), bs[|bs| - 1].at, s))
  {
    hide Judge, Taken, Since, PointsOf, InCgroup, Present;
    var n := |bs| - 1;
    var (was, ref) := (bs[..n], Taken(setup, bs[..n]));
    var p := Point(bs[n].at, s.anon);
    var t := Sampled(setup, ref, bs[n].at, s);
    assert PointOf(bs[n], s.key, s.cgroup, p);
    HereNow(bs[n], s);
    JudgedIn(setup, s);
    if s.key in ref && ref[s.key].service.cgroup == s.cgroup {
      var m: nat :| GoesBack(was, s.key, ref[s.key], m);
      SinceGrows(bs, s.key, s.cgroup, m);
      if Watched(t.service) { PointsGrow(bs, s.key, s.cgroup, m, ref[s.key].history, p); }
      assert GoesBack(bs, s.key, t, m + 1);
    } else {
      Anew(setup, bs, s);
      OnePoint(bs, s.key, s.cgroup, p);
      assert GoesBack(bs, s.key, t, 1);
    }
  }

  lemma {:induction false} HereNow(b: Batch, s: Sample)
    requires s in b.samples
    ensures InCgroup(b, s.key, s.cgroup)
  {
    assert s == Sample(s.key, s.cgroup, s.anon);
  }

  lemma {:induction false} JudgedIn(setup: Setup, s: Sample)
    ensures Judge(setup.policy, s.key.kind, s.key.name, s.cgroup).cgroup == s.cgroup
  {
  }

  lemma {:induction false} OnePoint(bs: seq<Batch>, k: Key, cgroup: string, p: Point)
    requires bs != [] && PointOf(bs[|bs| - 1], k, cgroup, p)
    ensures PointsOf(bs, k, cgroup, 1, [p] + [])
  {
  }

  /** A service that was not held, or in another cgroup, was not there before. */
  lemma {:induction false} Anew(setup: Setup, bs: seq<Batch>, s: Sample)
    requires AllDistinct(bs) && bs != [] && s in bs[|bs| - 1].samples
    requires var (was, ref) := (bs[..|bs| - 1], Taken(setup, bs[..|bs| - 1]));
             && (s.key in ref <==> was != [] && Present(was[|was| - 1].samples, s.key))
             && (s.key in ref ==> TrackedSo(setup, was, s.key, ref[s.key]) && ref[s.key].service.cgroup != s.cgroup)
    ensures Since(bs, s.key, s.cgroup, 1)
  {
    hide Taken, Judge, PointsOf;
    HereNow(bs[|bs| - 1], s);
    if |bs| > 1 {
      var (was, ref) := (bs[..|bs| - 1], Taken(setup, bs[..|bs| - 1]));
      var b := was[|was| - 1];
      assert b == bs[|bs| - 2] && DistinctKeys(b.samples);
      if s.key in ref {
        var m: nat :| GoesBack(was, s.key, ref[s.key], m);
        assert InCgroup(b, s.key, ref[s.key].service.cgroup);
        OneCgroup(b, s.key, ref[s.key].service.cgroup, s.cgroup);
      } else {
        NotThere(b, s.key, s.cgroup);
      }
    }
  }

  lemma {:induction false} OneCgroup(b: Batch, k: Key, c: string, d: string)
    requires DistinctKeys(b.samples) && InCgroup(b, k, c) && c != d
    ensures !InCgroup(b, k, d)
  {
    var x :| Sample(k, c, x) in b.samples;
    forall y ensures Sample(k, d, y) !in b.samples {}
  }

  lemma {:induction false} NotThere(b: Batch, k: Key, c: string)
    requires !Present(b.samples, k)
    ensures !InCgroup(b, k, c)
  {
    forall y ensures Sample(k, c, y) !in b.samples {}
  }
}
