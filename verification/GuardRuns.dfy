/** What every interleaving of the memory guard's steps keeps. */
module GuardRuns {
  import opened Basics
  import opened Episode
  import EpisodeRuns
  import opened Services
  import opened Culprits
  import opened Rings
  import opened GuardLoop

  // ---------------------------------------------------------------- restored records

  ghost predicate OnWay(o: Option<seq<Record>>, r: Record) { o.Some? ==> r in o.value }

  /** A restored record is on the shelf; once the shelf no longer keeps it beside
      the loop's own, the loop holds it and every batch on its way does. */
  ghost predicate Kept(w: World, r: Record) {
    && (r in w.shelf.records || r in w.shelf.late)
    && (w.shelf.started && r !in w.shelf.late ==>
          r in w.guard.records && OnWay(w.states, r) && OnWay(w.saving, r))
  }

  /** Later batches hold what earlier ones do, and the loop holds it all. */
  ghost predicate Handed(w: World, r: Record) {
    && (w.saving.Some? && r in w.saving.value ==> OnWay(w.states, r) && r in w.guard.records)
    && (w.states.Some? && r in w.states.value ==> r in w.guard.records)
  }

  ghost predicate KeepOK(window: int, w: World) {
    && (forall r :: r in w.restored && r.Within(window, w.now) ==> Kept(w, r))
    && (forall r: Record :: r.Within(window, w.now) ==> Handed(w, r))
    && (forall r :: r in w.shelf.late ==> r in w.restoredLate)
    && (w.writing.Some? ==>
          forall r :: r in w.writing.value.covers && r.Within(window, w.now) ==> r in w.writing.value.records)
  }

  /** Before the loop starts nothing moves. */
  ghost predicate QuietOK(w: World) {
    !w.shelf.started ==>
      && w.shelf.late == [] && w.restoredLate == {} && w.handing.None? && w.lateChannel.None?
      && w.states.None? && w.saving.None? && w.writing.None? && !w.shelf.loopSave
      && w.shelf.version == 0 && w.shelf.written == 0
      && w.running.None? && w.results.None? && w.guard == START && w.whole == map[]
  }

  /** The guard's pruned records are those of the whole history still within the
      repeat window, and no others. */
  ghost predicate HistoryOK(window: int, w: World) {
    && (forall r :: r in w.guard.records ==> r in w.history)
    && (forall r :: r in w.history && r.Within(window, w.now) ==> r in w.guard.records)
  }

  /** What is not waiting to be written is stored. */
  ghost predicate WriteOK(window: int, w: World) {
    && w.shelf.written <= w.shelf.version
    && (w.writing.Some? ==> w.shelf.written < w.writing.value.version <= w.shelf.version)
    && (w.writing.Some? && w.writing.value.version == w.shelf.version ==>
          forall r :: (r in w.shelf.records || r in w.shelf.late) && r.Within(window, w.now) ==>
            r in w.writing.value.records)
    && (w.shelf.restored && w.shelf.written == w.shelf.version ==>
          forall r :: (r in w.shelf.records || r in w.shelf.late) && r.Within(window, w.now) ==> r in w.stored)
  }

  lemma {:induction false} AllHas(s: Shelf, window: int, now: Time, r: Record)
    requires r.Within(window, now)
    ensures r in All(s, window, now) <==> r in s.records || r in s.late
  {
  }

  // ---------------------------------------------------------------- steps: records

  /** What the loop does to its records in one beat: it may add some, prunes only
      dead ones, and saves what it holds. */
  ghost predicate Grows(window: int, w: World, v: World) {
    && v.now == w.now
    && (forall r :: r in w.guard.records && r.Within(window, w.now) ==> r in v.guard.records)
    && v.shelf == w.shelf && v.saving == w.saving && v.writing == w.writing && v.stored == w.stored
    && v.restored == w.restored && v.restoredLate == w.restoredLate && v.handing == w.handing
    && (v.states == w.states || v.states == Some(Prune(v.guard.records, window, v.now)))
  }

  lemma {:induction false} GrowsKeeps(window: int, w: World, v: World)
    requires Grows(window, w, v) && KeepOK(window, w) && WriteOK(window, w) && w.shelf.started
    ensures KeepOK(window, v) && WriteOK(window, v)
  {
    forall r: Record | r.Within(window, v.now) ensures Handed(v, r) { assert Handed(w, r); }
    forall r | r in v.restored && r.Within(window, v.now) ensures Kept(v, r) { assert Kept(w, r); }
  }

  lemma {:induction false} CollectGrows(st: Setting, w: World, pick: Pick)
    requires CanPick(w, pick) && HistoryOK(st.cfg.repeatWindow, w)
    requires w.results.Some? ==> w.results.value.record.at <= w.now
    ensures Grows(st.cfg.repeatWindow, w, Collect(st, w, pick))
    ensures HistoryOK(st.cfg.repeatWindow, Collect(st, w, pick))
  {
  }

  lemma {:induction false} ReadServicesGrows(st: Setting, w: World, samples: Option<seq<Sample>>)
    ensures Grows(st.cfg.repeatWindow, w, ReadServices(st, w, samples))
    ensures HistoryOK(st.cfg.repeatWindow, w) ==> HistoryOK(st.cfg.repeatWindow, ReadServices(st, w, samples))
  {
  }

  lemma {:induction false} ReadHostGrows(st: Setting, w: World, h: Option<Host>, c: Option<Culprit>)
    requires HistoryOK(st.cfg.repeatWindow, w) && (h.Some? ==> h.value.at == w.now)
    ensures Grows(st.cfg.repeatWindow, w, ReadHost(st, w, h, c))
    ensures HistoryOK(st.cfg.repeatWindow, ReadHost(st, w, h, c))
  {
    if h.Some? { RecordsMove(st.cfg, w.guard, h.value, c); }
  }

  /** A reading changes the records only by adding one in report mode. */
  lemma {:induction false} RecordsMove(cfg: Config, g: Guard, h: Host, c: Option<Culprit>)
    ensures var (t, d) := Observe(cfg, g, h, c);
            if d.Some? && (d.value.kind.WouldRestart? || d.value.kind.WouldStop?)
            then
              && (forall r :: r in g.records && r.Within(cfg.repeatWindow, h.at) ==> r in t.records)
              && (forall r :: r in t.records ==> r in g.records || r in Newest(t.records))
              && (forall r :: r in Newest(t.records) ==> r in t.records)
            else t.records == g.records
  {
    hide ActionFor;
  }

  /** As time passes records only leave the window. */
  lemma {:induction false} AgeKeeps(window: int, w: World, at: Time)
    requires at >= w.now && KeepOK(window, w) && WriteOK(window, w) && HistoryOK(window, w)
    ensures var v := w.(now := at); KeepOK(window, v) && WriteOK(window, v) && HistoryOK(window, v)
  {
    var v := w.(now := at);
    forall r: Record | r.Within(window, at) ensures r.Within(window, w.now) {}
    forall r: Record | r.Within(window, at) ensures Handed(v, r) { assert Handed(w, r); }
    forall r | r in v.restored && r.Within(window, at) ensures Kept(v, r) { assert Kept(w, r); }
  }

  lemma {:induction false} SaveKeeps(window: int, w: World)
    requires w.saving.Some? && w.shelf.started && KeepOK(window, w) && WriteOK(window, w)
    ensures var v := w.(saving := None, shelf := ShelfSave(w.shelf, w.saving.value, window, w.now));
            KeepOK(window, v) && WriteOK(window, v)
  {
    var v := w.(saving := None, shelf := ShelfSave(w.shelf, w.saving.value, window, w.now));
    forall r: Record | r.Within(window, v.now) ensures Handed(v, r) { assert Handed(w, r); }
    forall r | r in v.restored && r.Within(window, v.now) ensures Kept(v, r) {
      assert Kept(w, r) && Handed(w, r);
    }
  }

  lemma {:induction false} RestoreKeeps(window: int, w: World, read: seq<Record>)
    requires KeepOK(window, w) && WriteOK(window, w) && QuietOK(w)
    requires forall r :: r in read ==> r in w.stored
    requires w.shelf.started ==> forall r :: r in w.restoredLate ==> r in read
    ensures var all := set r | r in read;
            var v := if w.shelf.started
                     then w.(shelf := ShelfRestore(w.shelf, read), handing := Some(read),
                             restored := w.restored + all, restoredLate := w.restoredLate + all)
                     else w.(shelf := ShelfRestore(w.shelf, read), restored := all);
            KeepOK(window, v) && WriteOK(window, v)
  {
    var all := set r | r in read;
    var v := if w.shelf.started
             then w.(shelf := ShelfRestore(w.shelf, read), handing := Some(read),
                     restored := w.restored + all, restoredLate := w.restoredLate + all)
             else w.(shelf := ShelfRestore(w.shelf, read), restored := all);
    forall r: Record | r.Within(window, v.now) ensures Handed(v, r) { assert Handed(w, r); }
    forall r | r in v.restored && r.Within(window, v.now) ensures Kept(v, r) {
      if r in w.restored { assert Kept(w, r); }
    }
  }

  lemma {:induction false} StartKeeps(window: int, w: World)
    requires !w.shelf.started && KeepOK(window, w) && WriteOK(window, w) && QuietOK(w)
    ensures var v := w.(shelf := w.shelf.(started := true),
                        guard := w.guard.(records := Prune(w.shelf.records, window, w.now)),
                        history := w.shelf.records);
            KeepOK(window, v) && WriteOK(window, v) && HistoryOK(window, v)
  {
    var v := w.(shelf := w.shelf.(started := true),
                guard := w.guard.(records := Prune(w.shelf.records, window, w.now)), history := w.shelf.records);
    forall r | r in v.restored && r.Within(window, v.now) ensures Kept(v, r) { assert Kept(w, r); }
  }

  lemma {:induction false} TakeStateKeeps(window: int, w: World)
    requires w.states.Some? && w.saving.None? && KeepOK(window, w) && WriteOK(window, w)
    ensures var v := w.(states := None, saving := w.states); KeepOK(window, v) && WriteOK(window, v)
  {
    var v := w.(states := None, saving := w.states);
    forall r: Record | r.Within(window, v.now) ensures Handed(v, r) { assert Handed(w, r); }
    forall r | r in v.restored && r.Within(window, v.now) ensures Kept(v, r) { assert Kept(w, r); }
  }

  lemma {:induction false} WriteKeeps(window: int, w: World, v: World)
    requires KeepOK(window, w)
    requires v == w.(writing := v.writing, stored := v.stored, shelf := w.shelf.(written := v.shelf.written))
    requires v.writing.Some? ==>
               forall r :: r in v.writing.value.covers && r.Within(window, v.now) ==> r in v.writing.value.records
    ensures KeepOK(window, v)
  {
    forall r: Record | r.Within(window, v.now) ensures Handed(v, r) { assert Handed(w, r); }
    forall r | r in v.restored && r.Within(window, v.now) ensures Kept(v, r) { assert Kept(w, r); }
  }

  lemma {:induction false} WriteBeginKeeps(window: int, w: World)
    requires w.writing.None? && Unwritten(w.shelf) && KeepOK(window, w) && WriteOK(window, w)
    ensures var v := w.(writing := Some(Snapshot(All(w.shelf, window, w.now), w.shelf.version, w.restored)));
            KeepOK(window, v) && WriteOK(window, v)
  {
    var v := w.(writing := Some(Snapshot(All(w.shelf, window, w.now), w.shelf.version, w.restored)));
    forall r: Record | r.Within(window, w.now)
      ensures r in v.writing.value.records <==> r in w.shelf.records || r in w.shelf.late
    {
      AllHas(w.shelf, window, w.now, r);
    }
    forall r | r in w.restored && r.Within(window, w.now) ensures r in v.writing.value.records { assert Kept(w, r); }
    WriteKeeps(window, w, v);
  }

  lemma {:induction false} OthersKeep(window: int, w: World, v: World)
    requires KeepOK(window, w) && WriteOK(window, w)
    requires v == w.(running := v.running, results := v.results, lateChannel := v.lateChannel, handing := v.handing,
                     stopping := v.stopping)
    ensures KeepOK(window, v) && WriteOK(window, v)
  {
    forall r: Record | r.Within(window, v.now) ensures Handed(v, r) { assert Handed(w, r); }
    forall r | r in v.restored && r.Within(window, v.now) ensures Kept(v, r) { assert Kept(w, r); }
  }

  // ---------------------------------------------------------------- one action at a time

  /** The service was judged, and may be touched. */
  ghost predicate MayTouch(policy: Policy, s: Service) {
    s == Judge(policy, s.kind, s.name, s.cgroup) && s.eligible && !s.protected
  }

  ghost predicate AwaitsAction(g: Guard) { g.ep.phase.Acted? && g.ep.doneAt == 0 }

  /** At most one action runs or waits to be taken in, and it is the one the
      episode waits for. */
  ghost predicate JobOK(st: Setting, w: World) {
    && !(w.running.Some? && w.results.Some?)
    && (w.running.Some? ==> AwaitsAction(w.guard) && w.running.value.record.at == w.guard.ep.actedAt <= w.now
                            && MayTouch(st.setup.policy, w.running.value.service))
    && (w.results.Some? ==> AwaitsAction(w.guard) && w.results.value.record.at == w.guard.ep.actedAt <= w.now)
    && (!w.stopping && AwaitsAction(w.guard) ==> w.running.Some? || w.results.Some?)
    && (w.guard.ep.phase.Danger? ==> w.guard.ep.doneAt == 0)
  }

  /** The services are judged, their histories are spaced, and the next sample
      comes no sooner than an interval after the last. */
  ghost predicate SampleOK(st: Setting, w: World) {
    && RefOK(w.whole, w.sampledAt) && w.sampledAt <= w.now
    && (w.whole == map[] || w.nextServices >= w.sampledAt + SERVICE_INTERVAL)
    && JudgedAll(st.setup.policy, w.whole)
  }

  ghost predicate JudgedAll(policy: Policy, whole: map<Key, Tracked>) {
    forall k :: k in whole ==>
      whole[k].service == Judge(policy, whole[k].service.kind, whole[k].service.name, whole[k].service.cgroup)
  }

  lemma {:induction false} ObservedJudged(setup: Setup, ref: map<Key, Tracked>, at: Time, samples: seq<Sample>)
    requires JudgedAll(setup.policy, ref)
    ensures JudgedAll(setup.policy, Observed(setup, ref, at, samples))
  {
    if samples != [] { ObservedJudged(setup, ref, at, samples[..|samples| - 1]); }
  }

  lemma {:induction false} ReadServicesSamples(st: Setting, w: World, samples: Option<seq<Sample>>)
    requires SampleOK(st, w)
    ensures SampleOK(st, ReadServices(st, w, samples))
  {
    if samples.Some? {
      if w.now >= w.nextServices { ObservedOK(st.setup, w.whole, w.sampledAt, w.now, samples.value); }
      ObservedJudged(st.setup, w.whole, w.now, samples.value);
    }
  }

  lemma {:induction false} CollectJobs(st: Setting, w: World, pick: Pick)
    requires CanPick(w, pick) && JobOK(st, w) && SampleOK(st, w) && w.now > 0
    ensures JobOK(st, Collect(st, w, pick)) && SampleOK(st, Collect(st, w, pick))
  {
    hide AddRecord, RefOK, JudgedAll, Prune, MergeRecords;
  }

  /** A blamed service that is not protected may be touched. */
  lemma {:induction false} BlamedMayTouch(st: Setting, w: World, c: Culprit)
    requires SampleOK(st, w) && Worst(st.setup, w.whole, w.now, Some(c)) && !c.service.protected
    ensures MayTouch(st.setup.policy, c.service)
  {
    var k :| Leads(st.setup, w.whole, w.whole.Keys, w.now, k, c);
    assert TrackedOK(k, w.whole[k], w.sampledAt);
  }

  /** A reading decides to act only outside an answered episode, on the culprit it
      was given, unless that is protected. */
  lemma {:induction false} ActsOn(cfg: Config, g: Guard, h: Host, c: Option<Culprit>)
    requires g.ep.phase.Danger? ==> g.ep.doneAt == 0
    ensures var (t, d) := Observe(cfg, g, h, c);
            && (t.ep.phase.Danger? ==> t.ep.doneAt == 0)
            && if d.Some? && d.value.act then
                 && !AwaitsAction(g) && AwaitsAction(t) && t.ep.actedAt == h.at
                 && !d.value.kind.WouldRestart? && !d.value.kind.WouldStop?
                 && c.Some? && !c.value.service.protected && d.value.culprit == c
                 && d.value.record.Some? && d.value.record.value.at == h.at
               else
                 && (AwaitsAction(t) <==> AwaitsAction(g))
                 && (AwaitsAction(g) ==> t.ep == g.ep)
  {
    hide AddRecord, ActionFor, IsDanger;
  }

  lemma {:induction false} ReadHostJobs(st: Setting, w: World, h: Option<Host>, c: Option<Culprit>)
    requires JobOK(st, w) && SampleOK(st, w) && w.now > 0
    requires h.Some? ==> h.value.at == w.now && Worst(st.setup, w.whole, w.now, c)
    ensures JobOK(st, ReadHost(st, w, h, c)) && SampleOK(st, ReadHost(st, w, h, c))
  {
    hide RefOK, JudgedAll, Worst, Prune, MayTouch, Observe, AwaitsAction, SampleOK;
    SampleSame(st, w, ReadHost(st, w, h, c));
    if h.Some? {
      if c.Some? && !c.value.service.protected { BlamedMayTouch(st, w, c.value); }
      ActsOn(st.cfg, w.guard, h.value, c);
      var v := ReadHost(st, w, h, c);
      var (t, d) := Observe(st.cfg, w.guard, h.value, c);
      assert v.guard == t && v.results == w.results && v.now == w.now && v.stopping == w.stopping;
      assert v.running.Some? ==> v.running.value.record.at == v.guard.ep.actedAt <= v.now;
      assert v.running.Some? ==> MayTouch(st.setup.policy, v.running.value.service);
    }
  }

  lemma {:induction false} SampleSame(st: Setting, w: World, v: World)
    requires SampleOK(st, w)
    requires v.whole == w.whole && v.sampledAt == w.sampledAt && v.nextServices == w.nextServices && v.now == w.now
    ensures SampleOK(st, v)
  {
    hide RefOK, JudgedAll;
  }

  // ---------------------------------------------------------------- runs

  ghost predicate Inv(st: Setting, w: World) {
    && KeepOK(st.cfg.repeatWindow, w) && WriteOK(st.cfg.repeatWindow, w) && HistoryOK(st.cfg.repeatWindow, w)
    && QuietOK(w) && JobOK(st, w) && SampleOK(st, w)
  }

  lemma {:induction false} BeatKeeps(st: Setting, w: World, step: Step)
    requires step.Beat? && Enabled(st, w, step) && Inv(st, w)
    ensures Inv(st, Next(st, w, step))
  {
    var window := st.cfg.repeatWindow;
    var w1 := w.(now := step.at);
    AgeKeeps(window, w, step.at);
    AgeJobs(st, w, step.at);
    var w2 := Collect(st, w1, step.pick);
    ResultAge(st, w1);
    CollectGrows(st, w1, step.pick);
    GrowsKeeps(window, w1, w2);
    CollectJobs(st, w1, step.pick);
    var w3 := ReadServices(st, w2, step.samples);
    StartedBeat(st, w1, step.pick, step.samples, step.host, step.culprit);
    ReadServicesGrows(st, w2, step.samples);
    GrowsKeeps(window, w2, w3);
    ReadServicesSamples(st, w2, step.samples);
    ReadServicesJobs(st, w2, step.samples);
    var w4 := ReadHost(st, w3, step.host, step.culprit);
    ReadHostGrows(st, w3, step.host, step.culprit);
    GrowsKeeps(window, w3, w4);
    ReadHostJobs(st, w3, step.host, step.culprit);
    hide KeepOK, WriteOK, HistoryOK, JobOK, SampleOK, QuietOK, Collect, ReadServices, ReadHost, Grows, Worst;
    assert Next(st, w, step) == w4;
  }

  lemma {:induction false} ResultAge(st: Setting, w: World)
    requires JobOK(st, w)
    ensures w.results.Some? ==> w.results.value.record.at <= w.now
  {
  }

  lemma {:induction false} AgeJobs(st: Setting, w: World, at: Time)
    requires at >= w.now && JobOK(st, w) && SampleOK(st, w)
    ensures JobOK(st, w.(now := at)) && SampleOK(st, w.(now := at))
  {
    hide MayTouch, RefOK, JudgedAll;
  }

  lemma {:induction false} ReadServicesJobs(st: Setting, w: World, samples: Option<seq<Sample>>)
    requires JobOK(st, w)
    ensures JobOK(st, ReadServices(st, w, samples))
  {
    hide MayTouch, Observed;
  }

  lemma {:induction false} StartedBeat(
    st: Setting, w: World, pick: Pick, samples: Option<seq<Sample>>, h: Option<Host>, c: Option<Culprit>)
    requires CanPick(w, pick) && w.shelf.started
    ensures var w2 := Collect(st, w, pick);
            var w3 := ReadServices(st, w2, samples);
            var w4 := ReadHost(st, w3, h, c);
            && w2.shelf.started && w3.shelf.started && w4.shelf.started && QuietOK(w4)
            && w2.now == w.now && w3.now == w.now
  {
    hide Observe, Observed, ActionDone, Prune, MergeRecords, ReadHost, ReadServices, Collect;
    CollectStays(st, w, pick);
    var w2 := Collect(st, w, pick);
    ReadServicesStays(st, w2, samples);
    ReadHostStays(st, ReadServices(st, w2, samples), h, c);
  }

  /** The parts of the world a beat leaves alone. */
  ghost predicate Beside(w: World, v: World) {
    v.now == w.now && v.shelf == w.shelf && v.writing == w.writing && v.stored == w.stored && v.handing == w.handing
  }

  lemma {:induction false} CollectStays(st: Setting, w: World, pick: Pick)
    requires CanPick(w, pick)
    ensures Beside(w, Collect(st, w, pick))
  {
    hide ActionDone, Prune, MergeRecords;
  }

  lemma {:induction false} ReadServicesStays(st: Setting, w: World, samples: Option<seq<Sample>>)
    ensures Beside(w, ReadServices(st, w, samples))
  {
    hide Observed;
  }

  lemma {:induction false} ReadHostStays(st: Setting, w: World, h: Option<Host>, c: Option<Culprit>)
    ensures Beside(w, ReadHost(st, w, h, c))
  {
    hide Observe, Prune;
  }

  lemma {:induction false} FinishKeeps(st: Setting, w: World, step: Step)
    requires step.Finish? && Enabled(st, w, step) && Inv(st, w)
    ensures Inv(st, Next(st, w, step)) && w.results.None?
  {
    hide KeepOK, WriteOK, HistoryOK, SampleOK, JobOK;
    AgeKeeps(st.cfg.repeatWindow, w, step.at);
    AgeJobs(st, w, step.at);
    OthersKeep(st.cfg.repeatWindow, w.(now := step.at), Next(st, w, step));
    SampleSame(st, w.(now := step.at), Next(st, w, step));
    HistorySame(st.cfg.repeatWindow, w.(now := step.at), Next(st, w, step));
    FinishJobs(st, w.(now := step.at), Next(st, w, step));
  }

  /** The finished action leaves its result where none was waiting. */
  lemma {:induction false} FinishJobs(st: Setting, w: World, v: World)
    requires JobOK(st, w) && w.running.Some?
    requires v.running.None? && v.guard == w.guard && v.now == w.now && v.stopping == w.stopping
    requires || (w.stopping && v.results == w.results)
             || (v.results.Some? && v.results.value.record.at == w.running.value.record.at)
    ensures JobOK(st, v) && w.results.None?
  {
    hide MayTouch;
  }

  lemma {:induction false} HistorySame(window: int, w: World, v: World)
    requires HistoryOK(window, w) && v.guard == w.guard && v.history == w.history && v.now == w.now
    ensures HistoryOK(window, v)
  {
  }

  lemma {:induction false} JobSame(st: Setting, w: World, v: World)
    requires JobOK(st, w) && v.now == w.now && v.running == w.running && v.results == w.results && v.guard == w.guard
    requires w.stopping ==> v.stopping
    ensures JobOK(st, v)
  {
    hide MayTouch;
  }

  lemma {:induction false} StartJobs(st: Setting, w: World, v: World)
    requires JobOK(st, w) && w.guard == START && w.running.None? && w.results.None?
    requires v.guard.ep == w.guard.ep && v.running.None? && v.results.None?
    ensures JobOK(st, v)
  {
  }

  lemma {:induction false} ShelfKeeps(st: Setting, w: World, step: Step)
    requires step.Restore? || step.Start? || step.Save? || step.TakeState? || step.WriteBegin? || step.WriteEnd?
    requires Enabled(st, w, step) && Inv(st, w)
    ensures KeepOK(st.cfg.repeatWindow, Next(st, w, step)) && WriteOK(st.cfg.repeatWindow, Next(st, w, step))
    ensures HistoryOK(st.cfg.repeatWindow, Next(st, w, step))
  {
    var window := st.cfg.repeatWindow;
    var w1 := w.(now := step.at);
    AgeKeeps(window, w, step.at);
    match step {
      case Restore(_, read) => RestoreKeeps(window, w1, read);
      case Start(_) => StartKeeps(window, w1);
      case Save(_) => SaveKeeps(window, w1);
      case TakeState(_) => TakeStateKeeps(window, w1);
      case WriteBegin(_) => WriteBeginKeeps(window, w1);
      case WriteEnd(_, _) => WriteKeeps(window, w1, Next(st, w, step));
    }
    if !step.Start? { HistorySame(window, w1, Next(st, w, step)); }
    hide KeepOK, HistoryOK, JobOK, SampleOK;
  }

  lemma {:induction false} StepKeeps(st: Setting, w: World, step: Step)
    requires Enabled(st, w, step) && Inv(st, w)
    ensures Inv(st, Next(st, w, step))
  {
    hide KeepOK, WriteOK, HistoryOK, SampleOK, JobOK;
    var v := Next(st, w, step);
    var w1 := w.(now := step.at);
    AgeKeeps(st.cfg.repeatWindow, w, step.at);
    AgeJobs(st, w, step.at);
    match step
    case Beat(_, _, _, _, _) => BeatKeeps(st, w, step);
    case Finish(_, _, _) => FinishKeeps(st, w, step);
    case Handoff(_) =>
      OthersKeep(st.cfg.repeatWindow, w1, v);
      HistorySame(st.cfg.repeatWindow, w1, v);
      JobSame(st, w1, v);
      SampleSame(st, w1, v);
    case Stop(_) =>
      OthersKeep(st.cfg.repeatWindow, w1, v);
      HistorySame(st.cfg.repeatWindow, w1, v);
      JobSame(st, w1, v);
      SampleSame(st, w1, v);
    case Start(_) =>
      ShelfKeeps(st, w, step);
      StartJobs(st, w1, v);
      SampleSame(st, w1, v);
    case _ =>
      ShelfKeeps(st, w, step);
      JobSame(st, w1, v);
      SampleSame(st, w1, v);
  }

  lemma {:induction false} Reachable(st: Setting, ws: seq<World>, steps: seq<Step>, k: nat)
    requires Run(st, ws, steps) && k < |ws|
    ensures Inv(st, ws[k])
  {
    if k > 0 {
      Reachable(st, ws, steps, k - 1);
      StepKeeps(st, ws[k - 1], steps[k - 1]);
    }
  }

  // ---------------------------------------------------------------- main results

  /** In every interleaving each restored record still within the repeat window is
      in what the guard would write. */
  lemma {:induction false} RestoredStaysOnShelf(st: Setting, ws: seq<World>, steps: seq<Step>, k: nat, r: Record)
    requires Run(st, ws, steps) && k < |ws| && r in ws[k].restored && r.Within(st.cfg.repeatWindow, ws[k].now)
    ensures r in All(ws[k].shelf, st.cfg.repeatWindow, ws[k].now)
  {
    Reachable(st, ws, steps, k);
    assert Kept(ws[k], r);
    AllHas(ws[k].shelf, st.cfg.repeatWindow, ws[k].now, r);
  }

  /** Every successful write stores each record restored before it began and still
      within the window when it ends. */
  lemma {:induction false} WritesKeepRestored(st: Setting, ws: seq<World>, steps: seq<Step>, b: nat, e: nat, r: Record)
    requires Run(st, ws, steps) && b < e < |steps| && steps[b].WriteBegin? && steps[e].WriteEnd? && steps[e].ok
    requires forall i :: b < i < e ==> !steps[i].WriteEnd?
    requires r in ws[b].restored && r.Within(st.cfg.repeatWindow, ws[e + 1].now)
    ensures r in ws[e + 1].stored
  {
    hide Next, Enabled, KeepOK, WriteOK, HistoryOK, QuietOK, JobOK, SampleOK;
    SameSnapshot(st, ws, steps, b, e);
    Reachable(st, ws, steps, e);
    assert Enabled(st, ws[e], steps[e]) && ws[e + 1] == Next(st, ws[e], steps[e]);
    WriteStores(st, ws[e], steps[e], r);
  }

  lemma {:induction false} WriteStores(st: Setting, w: World, step: Step, r: Record)
    requires Enabled(st, w, step) && step.WriteEnd? && step.ok && KeepOK(st.cfg.repeatWindow, w)
    requires w.writing.Some? && r in w.writing.value.covers && r.Within(st.cfg.repeatWindow, Next(st, w, step).now)
    ensures r in Next(st, w, step).stored
  {
    assert r.Within(st.cfg.repeatWindow, w.now);
  }

  lemma {:induction false} SameSnapshot(st: Setting, ws: seq<World>, steps: seq<Step>, b: nat, e: nat)
    requires Run(st, ws, steps) && b < e <= |steps| && steps[b].WriteBegin?
    requires forall i :: b < i < e ==> !steps[i].WriteEnd?
    ensures ws[e].writing.Some? && ws[e].writing.value.covers == ws[b].restored
  {
    hide Next, Enabled;
    var n := e - 1;
    assert Enabled(st, ws[n], steps[n]) && ws[n + 1] == Next(st, ws[n], steps[n]);
    if e > b + 1 {
      SameSnapshot(st, ws, steps, b, n);
      WritingSame(st, ws[n], steps[n]);
    } else {
      WritingBegins(st, ws[n], steps[n]);
    }
  }

  lemma {:induction false} WritingBegins(st: Setting, w: World, step: Step)
    requires Enabled(st, w, step) && step.WriteBegin?
    ensures Next(st, w, step).writing.Some? && Next(st, w, step).writing.value.covers == w.restored
  {
  }

  lemma {:induction false} WritingSame(st: Setting, w: World, step: Step)
    requires Enabled(st, w, step) && w.writing.Some? && !step.WriteEnd?
    ensures Next(st, w, step).writing == w.writing
  {
    hide Collect, ReadServices, ReadHost, Worst, ShelfRestore, ShelfSave, All, Prune, DistinctKeys;
    match step
    case Beat(_, pick, samples, h, c) =>
      var w1 := w.(now := step.at);
      BeatWriting(st, w1, pick, samples, h, c);
      assert w1.writing == w.writing;
    case Finish(_, _, _) =>
    case Restore(_, _) =>
    case Handoff(_) =>
    case Start(_) =>
    case TakeState(_) =>
    case Save(_) =>
    case Stop(_) =>
    case WriteBegin(_) =>
  }

  lemma {:induction false} BeatWriting(
    st: Setting, w: World, pick: Pick, samples: Option<seq<Sample>>, h: Option<Host>, c: Option<Culprit>)
    requires CanPick(w, pick)
    ensures ReadHost(st, ReadServices(st, Collect(st, w, pick), samples), h, c).writing == w.writing
  {
    hide Collect, ReadServices, ReadHost;
    CollectStays(st, w, pick);
    var w2 := Collect(st, w, pick);
    ReadServicesStays(st, w2, samples);
    ReadHostStays(st, ReadServices(st, w2, samples), h, c);
  }

  /** Once nothing is left to write, every live record on the shelf is stored. */
  lemma {:induction false} NothingLeftUnwritten(st: Setting, ws: seq<World>, steps: seq<Step>, k: nat, r: Record)
    requires Run(st, ws, steps) && k < |ws| && ws[k].shelf.restored && !Unwritten(ws[k].shelf)
    requires r in All(ws[k].shelf, st.cfg.repeatWindow, ws[k].now) && r.Within(st.cfg.repeatWindow, ws[k].now)
    ensures r in ws[k].stored
  {
    Reachable(st, ws, steps, k);
    AllHas(ws[k].shelf, st.cfg.repeatWindow, ws[k].now, r);
  }

  lemma {:induction false} SameLastActed(a: seq<Record>, b: seq<Record>, id: string, window: int, now: Time)
    requires forall r :: Counts(r, id, window, now) ==> (r in a <==> r in b)
    ensures LastActed(a, id, window, now) == LastActed(b, id, window, now)
  {
  }

  /** The guard restarts or stops a service exactly as the whole history of
      records it was ever given or made would have it, at any time from now on. */
  lemma {:induction false} ActsAsWholeHistory(
    st: Setting, ws: seq<World>, steps: seq<Step>, k: nat, id: string, at: Time)
    requires Run(st, ws, steps) && k < |ws| && at >= ws[k].now
    ensures ActionFor(ws[k].guard.records, id, st.cfg.repeatWindow, at) ==
            ActionFor(ws[k].history, id, st.cfg.repeatWindow, at)
    ensures ActionFor(ws[k].guard.records, id, st.cfg.repeatWindow, at).0 == HistoryAsks(st, ws[k], id, at)
  {
    Reachable(st, ws, steps, k);
    SameLastActed(ws[k].guard.records, ws[k].history, id, st.cfg.repeatWindow, at);
    ActionMeans(ws[k].history, id, st.cfg.repeatWindow, at);
    hide ActionFor;
  }

  /** To stop a service acted on within the window, and to restart any other. */
  ghost function HistoryAsks(st: Setting, w: World, id: string, now: Time): Action {
    var window := st.cfg.repeatWindow;
    if window > 0 && exists at :: ActedOn(w.history, id, window, now, at) then Action.Stop else Restart
  }

  /** The culprit is who grew the most, what is done to it is what the whole history
      asks for, and the record says so. */
  ghost predicate ActsOnCulprit(st: Setting, w: World, job: Job, c: Culprit) {
    && GrewMost(st.setup, w.whole, w.now, c) && !c.service.protected && job.service == c.service
    && job.record == Record(c.service.id, c.service.name, HistoryAsks(st, w, c.service.id, w.now), w.now, c.size, true)
  }

  /** In every run an action starts only in act mode, on the service that grew the
      most, which is not protected: a stop exactly when the whole history holds an
      action on it within the window. */
  lemma {:induction false} ActionStarted(st: Setting, ws: seq<World>, steps: seq<Step>, k: nat)
    requires Run(st, ws, steps) && k < |steps| && ws[k].running.None? && ws[k + 1].running.Some?
    ensures st.cfg.act && steps[k].Beat? && steps[k].culprit.Some?
    ensures ActsOnCulprit(st, ws[k + 1], ws[k + 1].running.value, steps[k].culprit.value)
  {
    hide Inv, Enabled, Next, ActionFor, HistoryAsks, GrewMost, Collect, ReadServices, ReadHost;
    Reachable(st, ws, steps, k + 1);
    var (w, v, step) := (ws[k], ws[k + 1], steps[k]);
    StartsByBeat(st, w, step);
    var u := Gathered(st, w, step);
    StartsJob(st, u, step.host, step.culprit);
    var c := step.culprit.value;
    CulpritGrewMost(st, v, c);
    ActsAsWholeHistory(st, ws, steps, k + 1, c.service.id, v.now);
    ActionMeans(v.guard.records, c.service.id, st.cfg.repeatWindow, v.now);
  }

  /** The world once a beat has taken in what was waiting and read the services. */
  ghost function Gathered(st: Setting, w: World, step: Step): World
    requires step.Beat? && CanPick(w, step.pick)
  {
    ReadServices(st, Collect(st, w.(now := step.at), step.pick), step.samples)
  }

  lemma {:induction false} StartsByBeat(st: Setting, w: World, step: Step)
    requires Enabled(st, w, step) && w.running.None? && Next(st, w, step).running.Some?
    ensures step.Beat? && CanPick(w, step.pick)
    ensures Next(st, w, step) == ReadHost(st, Gathered(st, w, step), step.host, step.culprit)
    ensures var u := Gathered(st, w, step);
            && u.running.None? && u.now == step.at
            && (step.host.Some? ==> step.host.value.at == u.now && Worst(st.setup, u.whole, u.now, step.culprit))
  {
    hide ActionDone, Prune, MergeRecords, Observed, ReadHost, Worst, DistinctKeys;
  }

  lemma {:induction false} StartsJob(st: Setting, w: World, h: Option<Host>, c: Option<Culprit>)
    requires h.Some? ==> h.value.at == w.now
    requires w.running.None? && ReadHost(st, w, h, c).running.Some?
    ensures var v := ReadHost(st, w, h, c);
            && st.cfg.act && h.Some? && c.Some? && !c.value.service.protected
            && v.guard.records == w.guard.records && v.whole == w.whole && v.now == w.now && v.history == w.history
            && var (s, r) := (c.value.service, v.running.value.record);
               && v.running.value.service == s && r.act && r.serviceID == s.id && r.name == s.name && r.at == v.now
               && r.before == c.value.size
               && r.action == ActionFor(w.guard.records, s.id, st.cfg.repeatWindow, v.now).0
  {
    if h.Some? {
      EpisodeRuns.DecidesSo(st.cfg, w.guard, h.value, c);
      if c.Some? { ActionMeans(w.guard.records, c.value.service.id, st.cfg.repeatWindow, w.now); }
      StillNotActs(st.cfg, w.guard, h.value, c);
    }
    hide Observe, ActionFor, Prune, ActedOn;
  }

  lemma {:induction false} StillNotActs(cfg: Config, g: Guard, h: Host, c: Option<Culprit>)
    ensures var d := Observe(cfg, g, h, c).1; d.Some? && d.value.act ==> d.value.Opens()
  {
    hide ActionFor, AddRecord, IsDanger;
  }

  lemma {:induction false} CulpritGrewMost(st: Setting, w: World, c: Culprit)
    requires SampleOK(st, w) && Worst(st.setup, w.whole, w.now, Some(c))
    ensures GrewMost(st.setup, w.whole, w.now, c)
  {
    hide Worst, GrewMost, RefOK, JudgedAll;
    WorstGrewMost(st.setup, w.whole, w.sampledAt, w.now, Some(c));
  }

  /** At most one action runs or awaits collection; until the guard stops that is
      exactly while the episode waits for its action. So a finished action never
      waits to hand over its result, and it only ever touches a service it may. */
  lemma {:induction false} OneActionAtATime(st: Setting, ws: seq<World>, steps: seq<Step>, k: nat)
    requires Run(st, ws, steps) && k < |ws|
    ensures !(ws[k].running.Some? && ws[k].results.Some?)
    ensures !ws[k].stopping ==> (AwaitsAction(ws[k].guard) <==> ws[k].running.Some? || ws[k].results.Some?)
    ensures ws[k].running.Some? ==> ws[k].results.None? && MayTouch(st.setup.policy, ws[k].running.value.service)
  {
    Reachable(st, ws, steps, k);
  }

  /** A service that may be touched is a service or scope under system.slice, not a
      slice, not tgshd's own, no core unit and not excluded. */
  lemma {:induction false} MayTouchMeans(policy: Policy, s: Service)
    requires MayTouch(policy, s)
    ensures IsServiceCgroup(Trim(s.cgroup)) && !HasSuffix(Trim(s.cgroup), ".slice")
    ensures !HoldsSelf(policy, Trim(s.cgroup)) && !(s.kind == Unit && IsCoreUnit(s.name))
    ensures !NeverTouch(policy, s.kind, s.name)
  {
    hide IsServiceCgroup, HoldsSelf, IsCoreUnit, NeverTouch, HasSuffix;
    ServiceIsNoSlice(Trim(s.cgroup));
  }
}
