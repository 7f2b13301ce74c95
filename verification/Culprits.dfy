/** Which service is to blame: the guard's bounded rings pick the culprit that the
    whole history of every service would pick, in whatever order they are looked
    at. */
module Culprits {
  import opened Basics
  import opened Episode
  import opened Rings
  import opened Services

  datatype Key = Key(kind: Kind, name: string)

  datatype Sample = Sample(key: Key, cgroup: string, anon: nat)

  datatype Setup = Setup(policy: Policy, window: int, minGrowth: nat)

  /** A service present at the latest sample with its whole history since it
      appeared or changed its cgroup, newest first. */
  datatype Tracked = Tracked(service: Service, history: seq<Point>)

  predicate Watched(s: Service) { s.eligible || s.protected }

  // ---------------------------------------------------------------- unbounded history

  ghost predicate DistinctKeys(samples: seq<Sample>) {
    forall i, j :: 0 <= i < j < |samples| ==> samples[i].key != samples[j].key
  }

  /** One sample of a service: its history t goes on, or starts anew. */
  function SampledFrom(setup: Setup, t: Option<Tracked>, at: Time, s: Sample): Tracked {
    var same := t.Some? && t.value.service.cgroup == s.cgroup;
    var service := if same then t.value.service else Judge(setup.policy, s.key.kind, s.key.name, s.cgroup);
    var before := if same then t.value.history else [];
    Tracked(service, if Watched(service) then [Point(at, s.anon)] + before else [])
  }

  function Sampled(setup: Setup, ref: map<Key, Tracked>, at: Time, s: Sample): Tracked {
    SampledFrom(setup, if s.key in ref then Some(ref[s.key]) else None, at, s)
  }

  predicate Present(samples: seq<Sample>, k: Key) { exists i :: 0 <= i < |samples| && samples[i].key == k }

  lemma {:induction false} PresentNext(samples: seq<Sample>)
    requires samples != []
    ensures forall k :: Present(samples, k) <==> Present(samples[..|samples| - 1], k) || samples[|samples| - 1].key == k
  {
    var n := |samples| - 1;
    forall k ensures Present(samples, k) <==> Present(samples[..n], k) || samples[n].key == k {
      if Present(samples[..n], k) {
        var i :| 0 <= i < n && samples[..n][i].key == k;
        assert samples[i].key == k;
      }
      if i :| 0 <= i < n && samples[i].key == k { assert samples[..n][i].key == k; }
    }
  }

  /** Every service present at a sample; the others are forgotten. */
  function Observed(setup: Setup, ref: map<Key, Tracked>, at: Time, samples: seq<Sample>): (r: map<Key, Tracked>)
    ensures forall k :: k in r <==> Present(samples, k)
  {
    if samples == [] then map[]
    else
      var n := |samples| - 1;
      PresentNext(samples);
      Observed(setup, ref, at, samples[..n])[samples[n].key := Sampled(setup, ref, at, samples[n])]
  }

  lemma {:induction false} ObservedNone(setup: Setup, ref: map<Key, Tracked>, at: Time)
    ensures Observed(setup, ref, at, []) == map[]
  {
  }

  lemma {:induction false} ObservedNext(setup: Setup, ref: map<Key, Tracked>, at: Time, samples: seq<Sample>, i: nat)
    requires i < |samples| && DistinctKeys(samples)
    ensures Observed(setup, ref, at, samples[..i + 1]) ==
            Observed(setup, ref, at, samples[..i])[samples[i].key := Sampled(setup, ref, at, samples[i])]
    ensures samples[i].key !in Observed(setup, ref, at, samples[..i])
  {
    assert samples[..i + 1][..i] == samples[..i];
  }

  ghost predicate TrackedOK(k: Key, t: Tracked, last: Time) {
    && t.service.id == IdOf(k.kind, k.name)
    && Spaced(t.history)
    && (t.history != [] ==> t.history[0].at <= last)
    && (!Watched(t.service) ==> t.history == [])
  }

  ghost predicate RefOK(ref: map<Key, Tracked>, last: Time) {
    forall k :: k in ref ==> TrackedOK(k, ref[k], last)
  }

  lemma {:induction false} ObservedOK(setup: Setup, ref: map<Key, Tracked>, last: Time, at: Time, samples: seq<Sample>)
    requires RefOK(ref, last) && (ref == map[] || at >= last + SERVICE_INTERVAL)
    ensures RefOK(Observed(setup, ref, at, samples), at)
  {
    if samples != [] {
      var n := |samples| - 1;
      ObservedOK(setup, ref, last, at, samples[..n]);
      assert TrackedOK(samples[n].key, Sampled(setup, ref, at, samples[n]), at);
    }
  }

  // ---------------------------------------------------------------- the culprit

  /** The blame history h of a service earns it: the growth shown in the window,
      not zero and at least the smallest that counts. */
  ghost predicate Blamed(setup: Setup, t: Tracked, at: Time, c: Culprit) {
    && TwoInWindow(t.history, at, setup.window)
    && c.before <= c.size && c.growth == c.size - c.before && c.growth > 0 && c.growth >= setup.minGrowth
    && c.service == t.service
    && Shows(t.history, at, setup.window, Measure(c.before, c.size, c.window))
  }

  predicate Beats(c: Culprit, d: Culprit) {
    if c.growth != d.growth then c.growth > d.growth
    else if c.size != d.size then c.size > d.size
    else Less(c.service.id, d.service.id)
  }

  /** Service k, among those seen, is to blame for c, and c beats whatever any
      other one is blamed for. */
  ghost predicate Leads(setup: Setup, ref: map<Key, Tracked>, seen: set<Key>, at: Time, k: Key, c: Culprit) {
    && k in seen && k in ref && Blamed(setup, ref[k], at, c)
    && forall j, d :: j in seen && j in ref && j != k && Blamed(setup, ref[j], at, d) ==> Beats(c, d)
  }

  ghost predicate NoneBlamed(setup: Setup, ref: map<Key, Tracked>, seen: set<Key>, at: Time) {
    forall j, d :: j in seen && j in ref ==> !Blamed(setup, ref[j], at, d)
  }

  /** The worst of the services seen, if any is blamed. */
  ghost predicate WorstOf(setup: Setup, ref: map<Key, Tracked>, seen: set<Key>, at: Time, r: Option<Culprit>) {
    match r
    case None => NoneBlamed(setup, ref, seen, at)
    case Some(best) => exists k :: Leads(setup, ref, seen, at, k, best)
  }

  /** r is the culprit the whole histories show. */
  ghost predicate Worst(setup: Setup, ref: map<Key, Tracked>, at: Time, r: Option<Culprit>) {
    WorstOf(setup, ref, ref.Keys, at, r)
  }

  lemma {:induction false} OneBlame(setup: Setup, t: Tracked, at: Time, a: Culprit, b: Culprit)
    requires Blamed(setup, t, at, a) && Blamed(setup, t, at, b)
    ensures a == b
  {
    ShowsOne(t.history, at, setup.window, Measure(a.before, a.size, a.window), Measure(b.before, b.size, b.window));
  }

  /** The culprit depends on the histories only, not on the order of looking. */
  lemma {:induction false} WorstIsOne(
    setup: Setup, ref: map<Key, Tracked>, at: Time, a: Option<Culprit>, b: Option<Culprit>)
    requires Worst(setup, ref, at, a) && Worst(setup, ref, at, b)
    ensures a == b
  {
    hide Blamed, Beats;
    if a.Some? && b.Some? {
      var j :| Leads(setup, ref, ref.Keys, at, j, a.value);
      var k :| Leads(setup, ref, ref.Keys, at, k, b.value);
      BeatsOneWay(a.value, b.value);
      if j == k { OneBlame(setup, ref[k], at, a.value, b.value); }
    }
  }

  /** No service grew more, none that grew as much is larger, and of those alike in
      both the ID of this one comes first. */
  ghost predicate GrewMost(setup: Setup, ref: map<Key, Tracked>, at: Time, c: Culprit) {
    && (exists k :: k in ref && Blamed(setup, ref[k], at, c))
    && forall j, d :: j in ref && Blamed(setup, ref[j], at, d) ==> NoWorse(d, c)
  }

  ghost predicate NoWorse(d: Culprit, c: Culprit) {
    && d.growth <= c.growth
    && (d.growth == c.growth ==> d.size <= c.size)
    && (d.growth == c.growth && d.size == c.size ==> d == c || Less(c.service.id, d.service.id))
  }

  /** The culprit is the service that grew the most, and none is named exactly when
      no service grew enough. */
  lemma {:induction false} WorstGrewMost(setup: Setup, ref: map<Key, Tracked>, last: Time, at: Time, r: Option<Culprit>)
    requires RefOK(ref, last)
    ensures Worst(setup, ref, at, r) <==>
            match r
            case None => forall j, d :: j in ref ==> !Blamed(setup, ref[j], at, d)
            case Some(c) => GrewMost(setup, ref, at, c)
  {
    hide Blamed, GrewMost, Leads, RefOK;
    if r.Some? {
      if Worst(setup, ref, at, r) {
        var k :| Leads(setup, ref, ref.Keys, at, k, r.value);
        LeaderGrewMost(setup, ref, at, k, r.value);
      }
      if GrewMost(setup, ref, at, r.value) { var k := GrewMostLeads(setup, ref, last, at, r.value); }
    }
  }

  lemma {:induction false} LeaderGrewMost(setup: Setup, ref: map<Key, Tracked>, at: Time, k: Key, c: Culprit)
    requires Leads(setup, ref, ref.Keys, at, k, c)
    ensures GrewMost(setup, ref, at, c)
  {
    hide Blamed, Less;
    forall j, d | j in ref && Blamed(setup, ref[j], at, d) ensures NoWorse(d, c) {
      if j == k { OneBlame(setup, ref[k], at, c, d); } else { assert j in ref.Keys && Beats(c, d); }
    }
  }

  lemma {:induction false} GrewMostLeads(setup: Setup, ref: map<Key, Tracked>, last: Time, at: Time, c: Culprit)
    returns (k: Key)
    requires RefOK(ref, last) && GrewMost(setup, ref, at, c)
    ensures Leads(setup, ref, ref.Keys, at, k, c)
  {
    hide Blamed, Less, RefOK;
    k :| k in ref && Blamed(setup, ref[k], at, c);
    forall j, d | j in ref && j != k && Blamed(setup, ref[j], at, d) ensures Beats(c, d) {
      BlamedIDs(setup, ref, last, k, j, at, c, d);
      assert NoWorse(d, c);
    }
  }

  lemma {:induction false} BeatsOneWay(a: Culprit, b: Culprit)
    ensures !(Beats(a, b) && Beats(b, a))
    ensures a.service.id != b.service.id ==> Beats(a, b) || Beats(b, a)
  {
    LessTotal(a.service.id, b.service.id);
  }

  lemma {:induction false} BeatsTransitive(a: Culprit, b: Culprit, c: Culprit)
    requires Beats(a, b) && Beats(b, c)
    ensures Beats(a, c)
  {
    if a.growth == b.growth == c.growth && a.size == b.size == c.size {
      LessTransitive(a.service.id, b.service.id, c.service.id);
    }
  }

  // ---------------------------------------------------------------- the guard's own history

  /** What the rings say of one service: they hold its most recent points. */
  function Measured(setup: Setup, service: Service, held: seq<Point>, at: Time): Option<Culprit> {
    var m := Growth(held, at, setup.window);
    if m.None? || m.value.before >= m.value.size || m.value.size - m.value.before < setup.minGrowth then None
    else Some(Culprit(service, m.value.before, m.value.size, m.value.size - m.value.before, m.value.window))
  }

  lemma {:induction false} MeasuredIsBlamed(setup: Setup, k: Key, t: Tracked, last: Time, at: Time)
    requires TrackedOK(k, t, last) && at >= last
    ensures var held := Recent(t.history, Depth(setup.window));
            && (Growth(held, at, setup.window).Some? ==>
                  Growth(held, at, setup.window).value.before <= Growth(held, at, setup.window).value.size)
            && forall c :: Blamed(setup, t, at, c) <==> Measured(setup, t.service, held, at) == Some(c)
  {
    var held := Recent(t.history, Depth(setup.window));
    RingMeasuresHistory(t.history, at, setup.window);
    forall c ensures Blamed(setup, t, at, c) <==> Measured(setup, t.service, held, at) == Some(c) {
      if Blamed(setup, t, at, c) {
        ShowsOne(t.history, at, setup.window, Measure(c.before, c.size, c.window),
                 Growth(held, at, setup.window).value);
      }
    }
  }

  datatype Entry = Entry(service: Service, ring: Option<Ring>, seen: nat)

  /** The entry stands for t: same service, and its ring holds the most recent
      points of t's history. */
  ghost predicate Holds(e: Entry, t: Tracked, depth: nat)
    reads if e.ring.Some? then {e.ring.value, e.ring.value.points} else {}
  {
    && e.service == t.service
    && (Watched(e.service) ==> e.ring.Some?)
    && (!Watched(e.service) ==> t.history == [])
    && (e.ring.Some? ==> e.ring.value.Valid() && e.ring.value.points.Length == depth
                         && e.ring.value.Contents() == Recent(t.history, depth))
  }

  lemma {:induction false} RecentAdd(h: seq<Point>, p: Point, depth: nat)
    requires depth > 0
    ensures var all := [p] + Recent(h, depth);
            Recent([p] + h, depth) == if |all| > depth then all[..depth] else all
  {
  }

  lemma {:induction false} RecentOne(p: Point, depth: nat)
    requires depth > 0
    ensures Recent([], depth) == [] && Recent([p], depth) == [p] && Recent([p] + [], depth) == [p]
  {
    assert [p] + [] == [p];
  }

  class History {
    const setup: Setup
    const depth: nat
    var entries: map<Key, Entry>
    var gen: nat
    /** The whole history the rings stand for, and when it was last sampled. */
    ghost var whole: map<Key, Tracked>
    ghost var last: Time
    ghost var repr: set<object>

    /** The objects that hold the history of a service. */
    ghost function Footprint(k: Key): set<object>
      reads this
    {
      if k in entries && entries[k].ring.Some? then {entries[k].ring.value, entries[k].ring.value.points} else {}
    }

    ghost predicate Separate()
      reads this
    {
      && (forall k :: k in entries && entries[k].ring.Some? ==>
            entries[k].ring.value in repr && entries[k].ring.value.points in repr)
      && (forall j, k :: j in entries && k in entries && j != k && entries[j].ring.Some? && entries[k].ring.Some? ==>
            entries[j].ring.value != entries[k].ring.value
            && entries[j].ring.value.points != entries[k].ring.value.points)
    }

    ghost predicate Valid()
      reads this, repr
    {
      && this !in repr && depth == Depth(setup.window)
      && Separate()
      && entries.Keys == whole.Keys
      && (forall k :: k in entries ==> entries[k].seen <= gen && Holds(entries[k], whole[k], depth))
      && RefOK(whole, last)
    }

    constructor (setup: Setup)
      ensures Valid() && this.setup == setup && whole == map[] && fresh(repr)
    {
      this.setup := setup;
      depth := Depth(setup.window);
      entries, gen := map[], 0;
      whole, last, repr := map[], 0, {};
    }

    /** Records one more sample of a service whose cgroup did not change. */
    method Continue(at: Time, s: Sample, ghost t: Option<Tracked>)
      requires depth > 0 && this !in repr && Separate()
      requires s.key in entries <==> t.Some?
      requires t.Some? ==> Holds(entries[s.key], t.value, depth)
      requires s.key in entries && entries[s.key].service.cgroup == s.cgroup
      modifies this`entries, this`repr, Footprint(s.key)
      ensures this !in repr && Separate() && fresh(repr - old(repr)) && old(repr) <= repr
      ensures entries.Keys == old(entries).Keys + {s.key} && entries[s.key].seen == gen
      ensures Holds(entries[s.key], SampledFrom(setup, t, at, s), depth)
      ensures forall j :: j in old(entries) && j != s.key ==> entries[j] == old(entries[j])
    {
      hide Judge, Recent, Slot;
      var e := entries[s.key];
      entries := entries[s.key := e.(seen := gen)];
      if Watched(e.service) {
        RecentAdd(t.value.history, Point(at, s.anon), depth);
        e.ring.value.Add(Point(at, s.anon));
      }
    }

    /** The ring of a service that appeared or changed its cgroup, emptied. */
    method Emptied(key: Key, service: Service) returns (ring: Option<Ring>)
      requires depth > 0 && this !in repr && Separate()
      requires key in entries && entries[key].ring.Some? ==> entries[key].ring.value.Valid()
                                                             && entries[key].ring.value.points.Length == depth
      modifies this`repr, Footprint(key)
      ensures this !in repr && fresh(repr - old(repr)) && old(repr) <= repr
      ensures key in entries && entries[key].ring.Some? ==> ring == entries[key].ring
      ensures !(key in entries && entries[key].ring.Some?) && ring.Some? ==>
              fresh(ring.value) && fresh(ring.value.points)
      ensures Watched(service) ==> ring.Some?
      ensures ring.Some? ==> ring.value in repr && ring.value.points in repr && ring.value.Valid()
                             && ring.value.points.Length == depth && ring.value.Contents() == []
    {
      hide Recent, Slot;
      ring := if key in entries then entries[key].ring else None;
      if ring.Some? {
        ring.value.Reset();
      } else if Watched(service) {
        var created := new Ring(depth);
        ring := Some(created);
        repr := repr + {created, created.points};
      }
    }

    /** Starts the history of a service that appeared or changed its cgroup. */
    method Begin(at: Time, s: Sample, ghost t: Option<Tracked>)
      requires depth > 0 && this !in repr && Separate()
      requires s.key in entries <==> t.Some?
      requires t.Some? ==> Holds(entries[s.key], t.value, depth)
      requires s.key in entries ==> entries[s.key].service.cgroup != s.cgroup
      modifies this`entries, this`repr, Footprint(s.key)
      ensures this !in repr && Separate() && fresh(repr - old(repr)) && old(repr) <= repr
      ensures entries.Keys == old(entries).Keys + {s.key} && entries[s.key].seen == gen
      ensures Holds(entries[s.key], SampledFrom(setup, t, at, s), depth)
      ensures forall j :: j in old(entries) && j != s.key ==> entries[j] == old(entries[j])
    {
      hide Judge, Slot, Recent;
      var service := Judge(setup.policy, s.key.kind, s.key.name, s.cgroup);
      var ring := Emptied(s.key, service);
      entries := entries[s.key := Entry(service, ring, gen)];
      RecentOne(Point(at, s.anon), depth);
      if Watched(service) { ring.value.Add(Point(at, s.anon)); }
    }

    /** Records one sample of one service; `t` is what its history was, if the
        guard holds it. */
    method Take(at: Time, s: Sample, ghost t: Option<Tracked>)
      requires depth > 0 && this !in repr && Separate()
      requires s.key in entries <==> t.Some?
      requires t.Some? ==> Holds(entries[s.key], t.value, depth)
      modifies this`entries, this`repr, Footprint(s.key)
      ensures this !in repr && Separate() && fresh(repr - old(repr)) && old(repr) <= repr
      ensures entries.Keys == old(entries).Keys + {s.key} && entries[s.key].seen == gen
      ensures Holds(entries[s.key], SampledFrom(setup, t, at, s), depth)
      ensures forall j :: j in old(entries) && j != s.key ==> entries[j] == old(entries[j])
    {
      if s.key in entries && entries[s.key].service.cgroup == s.cgroup {
        Continue(at, s, t);
      } else {
        Begin(at, s, t);
      }
    }

    ghost predicate HoldAll(m: map<Key, Tracked>)
      reads this, repr
      requires Separate()
    {
      forall k :: k in entries ==> k in m && Holds(entries[k], m[k], depth)
    }

    /** The services sampled so far are those of `done`. */
    ghost predicate SeenAre(done: set<Key>)
      reads this
    {
      forall k :: k in entries ==> entries[k].seen <= gen && (entries[k].seen == gen <==> k in done)
    }

    /** While the samples are taken in: `done` are the services sampled so far, the
        others are as in `ref`. */
    ghost predicate Halfway(ref: map<Key, Tracked>, done: map<Key, Tracked>)
      reads this, repr
    {
      && this !in repr && depth > 0 && Separate()
      && entries.Keys == ref.Keys + done.Keys
      && SeenAre(done.Keys)
      && HoldAll(ref + done)
    }

    /** Taking a sample leaves what the other services hold alone. */
    method TakeBeside(at: Time, s: Sample, ghost t: Option<Tracked>, ghost now: map<Key, Tracked>)
      requires depth > 0 && this !in repr && Separate() && HoldAll(now)
      requires t == if s.key in entries then Some(now[s.key]) else None
      modifies this`entries, this`repr, repr
      ensures this !in repr && Separate() && fresh(repr - old(repr)) && old(repr) <= repr
      ensures entries.Keys == old(entries).Keys + {s.key} && entries[s.key].seen == gen
      ensures forall j :: j in old(entries) && j != s.key ==> entries[j] == old(entries[j])
      ensures HoldAll(now[s.key := SampledFrom(setup, t, at, s)])
    {
      hide SampledFrom;
      Take(at, s, t);
      forall k | k in entries && k != s.key ensures k in now && Holds(entries[k], now[k], depth) {
        assert k in old(entries) && old(Holds(entries[k], now[k], depth));
      }
    }

    method TakeNext(at: Time, s: Sample, ghost ref: map<Key, Tracked>, ghost done: map<Key, Tracked>)
      requires Halfway(ref, done) && s.key !in done
      modifies this`entries, this`repr, repr
      ensures Halfway(ref, done[s.key := Sampled(setup, ref, at, s)])
      ensures this !in repr && fresh(repr - old(repr)) && old(repr) <= repr
    {
      hide SampledFrom, HoldAll, Holds, Separate;
      ghost var next := Sampled(setup, ref, at, s);
      OneDone(ref, done, s.key, next);
      TakeBeside(at, s, if s.key in ref then Some(ref[s.key]) else None, ref + done);
      assert SeenAre(done.Keys + {s.key});
      hide SeenAre;
    }

    /** Begins a sample: nothing is taken in yet. */
    method NextGeneration()
      requires Valid()
      modifies this`gen
      ensures gen == old(gen) + 1 && this !in repr && Halfway(whole, map[])
    {
      hide RefOK, Holds;
      gen := gen + 1;
      assert whole + map[] == whole;
    }

    /** Records one sample of every service present; those missing are dropped
        with their history. The rings stand for the whole history throughout. */
    method ObserveServices(at: Time, samples: seq<Sample>)
      requires Valid() && DistinctKeys(samples) && (whole == map[] || at >= last + SERVICE_INTERVAL)
      modifies this, repr
      ensures Valid() && fresh(repr - old(repr))
      ensures whole == Observed(setup, old(whole), at, samples) && last == at
    {
      hide Valid, Halfway, Observed, RefOK, DistinctKeys, Depth, Sampled;
      ghost var ref := whole;
      ValidMeans();
      ObservedOK(setup, ref, last, at, samples);
      ObservedNone(setup, ref, at);
      assert samples[..0] == [];
      NextGeneration();
      for i := 0 to |samples|
        invariant this !in repr && whole == ref && Halfway(ref, Observed(setup, ref, at, samples[..i]))
        invariant fresh(repr - old(repr)) && old(repr) <= repr
      {
        ObservedNext(setup, ref, at, samples, i);
        TakeNext(at, samples[i], ref, Observed(setup, ref, at, samples[..i]));
      }
      assert samples[..|samples|] == samples;
      DropUnseen(at, ref, Observed(setup, ref, at, samples));
    }

    lemma {:induction false} ValidMeans()
      requires Valid()
      ensures depth == Depth(setup.window) && RefOK(whole, last)
    {
      hide RefOK, Depth, Holds, Separate;
    }

    /** Forgets the services the last sample did not have. */
    method DropUnseen(at: Time, ghost ref: map<Key, Tracked>, ghost done: map<Key, Tracked>)
      requires Halfway(ref, done) && RefOK(done, at) && depth == Depth(setup.window)
      modifies this
      ensures Valid() && whole == done && last == at && repr == old(repr) && gen == old(gen)
    {
      hide RefOK, Holds;
      ghost var before := entries;
      entries := map k | k in entries && entries[k].seen == gen :: entries[k];
      whole, last := done, at;
      assert entries.Keys == done.Keys;
      forall k | k in entries ensures Holds(entries[k], whole[k], depth) { assert (ref + done)[k] == done[k]; }
    }

    /** The culprit at `at`: the loop looks at the services in any order. */
    method FindCulprit(at: Time) returns (best: Option<Culprit>)
      requires Valid() && at >= last
      ensures Worst(setup, whole, at, best)
      ensures match best
              case None => forall j, d :: j in whole ==> !Blamed(setup, whole[j], at, d)
              case Some(c) => GrewMost(setup, whole, at, c)
    {
      best := None;
      var left := entries.Keys;
      assert entries.Keys - left == {};
      while left != {}
        invariant left <= entries.Keys
        invariant WorstOf(setup, whole, entries.Keys - left, at, best)
        decreases left
      {
        var k :| k in left;
        ghost var seen, was := entries.Keys - left, best;
        left := left - {k};
        assert entries.Keys - left == seen + {k};
        var c := Measure1(k, at);
        if c.Some? && (best.None? || Beats(c.value, best.value)) { best := c; }
        WorstStep(setup, whole, last, seen, k, at, was, c);
      }
      assert entries.Keys - left == whole.Keys;
      WorstGrewMost(setup, whole, last, at, best);
    }

    /** One service's growth, when it is enough to be blamed for. */
    method Measure1(k: Key, at: Time) returns (c: Option<Culprit>)
      requires Valid() && at >= last && k in entries
      ensures c == Measured(setup, whole[k].service, Recent(whole[k].history, Depth(setup.window)), at)
    {
      var e := entries[k];
      assert Holds(e, whole[k], depth) && TrackedOK(k, whole[k], last);
      c := None;
      if e.ring.Some? {
        MeasuredIsBlamed(setup, k, whole[k], last, at);
        var m := e.ring.value.Grown(at, setup.window);
        if m.Some? && m.value.size - m.value.before != 0 && m.value.size - m.value.before >= setup.minGrowth {
          c := Some(Culprit(e.service, m.value.before, m.value.size, m.value.size - m.value.before, m.value.window));
        }
      }
    }
  }

  /** Looking at one more service. */
  lemma {:induction false} OneDone(ref: map<Key, Tracked>, done: map<Key, Tracked>, k: Key, t: Tracked)
    ensures (ref + done)[k := t] == ref + done[k := t] && done[k := t].Keys == done.Keys + {k}
    ensures k !in done && k in ref ==> (ref + done)[k] == ref[k]
  {
  }

  lemma {:induction false} WorstStep(setup: Setup, ref: map<Key, Tracked>, last: Time, seen: set<Key>, k: Key, at: Time,
                  was: Option<Culprit>, c: Option<Culprit>)
    requires k in ref && k !in seen && RefOK(ref, last) && at >= last && WorstOf(setup, ref, seen, at, was)
    requires c == Measured(setup, ref[k].service, Recent(ref[k].history, Depth(setup.window)), at)
    ensures WorstOf(setup, ref, seen + {k}, at,
                    if c.Some? && (was.None? || Beats(c.value, was.value)) then c else was)
  {
    assert TrackedOK(k, ref[k], last);
    MeasuredIsBlamed(setup, k, ref[k], last, at);
    hide Blamed, Beats, Measured, Recent, TrackedOK, RefOK;
    if was.None? {
      if c.Some? { LeadsFirst(setup, ref, seen, k, at, c.value); }
    } else {
      var w :| Leads(setup, ref, seen, at, w, was.value);
      if c.None? {
        LeadsStill(setup, ref, seen, w, k, at, was.value);
      } else if Beats(c.value, was.value) {
        LeadsNew(setup, ref, seen, w, k, at, was.value, c.value);
      } else {
        BlamedIDs(setup, ref, last, w, k, at, was.value, c.value);
        BeatsOneWay(c.value, was.value);
        OneBlameAll(setup, ref[k], at, c.value);
        LeadsStill(setup, ref, seen, w, k, at, was.value);
      }
    }
  }

  lemma {:induction false} LeadsFirst(
    setup: Setup, ref: map<Key, Tracked>, seen: set<Key>, k: Key, at: Time, c: Culprit)
    requires k in ref && NoneBlamed(setup, ref, seen, at) && Blamed(setup, ref[k], at, c)
    ensures Leads(setup, ref, seen + {k}, at, k, c)
  {
  }

  lemma {:induction false} LeadsStill(
    setup: Setup, ref: map<Key, Tracked>, seen: set<Key>, w: Key, k: Key, at: Time, was: Culprit)
    requires k in ref && Leads(setup, ref, seen, at, w, was)
    requires forall d :: Blamed(setup, ref[k], at, d) ==> Beats(was, d)
    ensures Leads(setup, ref, seen + {k}, at, w, was)
  {
  }

  lemma {:induction false} LeadsNew(
    setup: Setup, ref: map<Key, Tracked>, seen: set<Key>, w: Key, k: Key, at: Time, was: Culprit, c: Culprit)
    requires k in ref && k !in seen && Leads(setup, ref, seen, at, w, was)
    requires Blamed(setup, ref[k], at, c) && Beats(c, was)
    ensures Leads(setup, ref, seen + {k}, at, k, c)
  {
    forall j, d | j in seen && j in ref && Blamed(setup, ref[j], at, d) ensures Beats(c, d) {
      if j == w { OneBlame(setup, ref[w], at, d, was); } else { BeatsTransitive(c, was, d); }
    }
  }

  lemma {:induction false} OneBlameAll(setup: Setup, t: Tracked, at: Time, c: Culprit)
    requires Blamed(setup, t, at, c)
    ensures forall d :: Blamed(setup, t, at, d) ==> d == c
  {
    hide Blamed;
    forall d | Blamed(setup, t, at, d) ensures d == c { OneBlame(setup, t, at, c, d); }
  }

  lemma {:induction false} BlamedIDs(
    setup: Setup, ref: map<Key, Tracked>, last: Time, w: Key, k: Key, at: Time, a: Culprit, c: Culprit)
    requires w in ref && k in ref && w != k && RefOK(ref, last)
    requires Blamed(setup, ref[w], at, a) && Blamed(setup, ref[k], at, c)
    ensures a.service.id != c.service.id
  {
    assert TrackedOK(w, ref[w], last) && TrackedOK(k, ref[k], last);
    if a.service.id == c.service.id { IdsDiffer(w.kind, w.name, k.kind, k.name); }
  }
}
