/** What the guard decided reaches the store: its records over every interleaving of the
    loop, the save and the writer, and what a finished action's record says. */
module GuardStores {
  import opened Basics
  import opened Episode
  import opened Culprits
  import opened GuardLoop
  import opened GuardRuns

  /** Where the loop's records are on their way to the store: the latest batch handed
      on, or the shelf once none is left. */
  ghost predicate OnItsWay(w: World, r: Record) {
    if w.states.Some? then r in w.states.value
    else if w.saving.Some? then r in w.saving.value
    else r in w.shelf.records || r in w.shelf.late
  }

  ghost predicate HandedOn(window: int, w: World) {
    forall r :: r in w.guard.records && r.Within(window, w.now) ==> OnItsWay(w, r)
  }

  lemma {:induction false} AgeHandsOn(window: int, w: World, at: Time)
    requires HandedOn(window, w) && at >= w.now
    ensures HandedOn(window, w.(now := at))
  {
    forall r | r in w.guard.records && r.Within(window, at) ensures OnItsWay(w.(now := at), r) {
      assert OnItsWay(w, r);
    }
  }

  lemma {:induction false} SavedIsHanded(window: int, w: World)
    ensures HandedOn(window, SaveState(w, window))
  {
  }

  lemma {:induction false} CollectHandsOn(st: Setting, w: World, pick: Pick)
    requires CanPick(w, pick) && HandedOn(st.cfg.repeatWindow, w)
    ensures HandedOn(st.cfg.repeatWindow, Collect(st, w, pick))
  {
    hide Prune, MergeRecords, AddRecord, SaveState;
    var window := st.cfg.repeatWindow;
    match pick
    case TakeResult =>
      var r := w.results.value;
      SavedIsHanded(window, w.(results := None, guard := ActionDone(st.cfg, w.guard, w.now, r.record, r.ok),
                               history := w.history + [r.record]));
    case TakeLate =>
      var more := w.lateChannel.value;
      SavedIsHanded(window, w.(lateChannel := None,
        guard := w.guard.(records := MergeRecords(w.guard.records, more, window, w.now)), history := w.history + more));
    case TakeNothing =>
  }

  lemma {:induction false} ReadHostHandsOn(st: Setting, w: World, h: Option<Host>, c: Option<Culprit>)
    requires HandedOn(st.cfg.repeatWindow, w)
    ensures HandedOn(st.cfg.repeatWindow, ReadHost(st, w, h, c))
  {
    hide Observe, SaveState, Newest;
    if h.Some? {
      RecordsMove(st.cfg, w.guard, h.value, c);
      var g := Observe(st.cfg, w.guard, h.value, c).0;
      SavedIsHanded(st.cfg.repeatWindow, w.(guard := g, history := w.history + Newest(g.records)));
    }
  }

  lemma {:induction false} BeatHandsOn(st: Setting, w: World, step: Step)
    requires step.Beat? && Enabled(st, w, step) && HandedOn(st.cfg.repeatWindow, w)
    ensures HandedOn(st.cfg.repeatWindow, Next(st, w, step))
  {
    hide HandedOn, Collect, ReadHost, Worst;
    var w1 := w.(now := step.at);
    AgeHandsOn(st.cfg.repeatWindow, w, step.at);
    var w2 := Collect(st, w1, step.pick);
    CollectHandsOn(st, w1, step.pick);
    SampledHandsOn(st, w2, step.samples);
    ReadHostHandsOn(st, ReadServices(st, w2, step.samples), step.host, step.culprit);
  }

  lemma {:induction false} SampledHandsOn(st: Setting, w: World, samples: Option<seq<Sample>>)
    requires HandedOn(st.cfg.repeatWindow, w)
    ensures HandedOn(st.cfg.repeatWindow, ReadServices(st, w, samples))
  {
    hide Observed;
    var v := ReadServices(st, w, samples);
    forall r | r in v.guard.records && r.Within(st.cfg.repeatWindow, v.now) ensures OnItsWay(v, r) {
      assert OnItsWay(w, r);
    }
  }

  lemma {:induction false} OthersHandOn(st: Setting, w: World, step: Step)
    requires !step.Beat? && Enabled(st, w, step) && GuardRuns.Inv(st, w) && HandedOn(st.cfg.repeatWindow, w)
    ensures HandedOn(st.cfg.repeatWindow, Next(st, w, step))
  {
    hide JobOK, SampleOK, HistoryOK, WriteOK, All;
    var v := Next(st, w, step);
    var window := st.cfg.repeatWindow;
    forall r | r in v.guard.records && r.Within(window, v.now) ensures OnItsWay(v, r) {
      if r in w.guard.records { assert OnItsWay(w, r); }
    }
  }

  lemma {:induction false} HandedReachable(st: Setting, ws: seq<World>, steps: seq<Step>, k: nat)
    requires Run(st, ws, steps) && k < |ws|
    ensures HandedOn(st.cfg.repeatWindow, ws[k])
  {
    hide Enabled, Next, GuardRuns.Inv;
    if k > 0 {
      HandedReachable(st, ws, steps, k - 1);
      Reachable(st, ws, steps, k - 1);
      if steps[k - 1].Beat? {
        BeatHandsOn(st, ws[k - 1], steps[k - 1]);
      } else {
        OthersHandOn(st, ws[k - 1], steps[k - 1]);
      }
    }
  }

  /** In every interleaving each record the guard holds within the window, of what it
      did or would have done, is in the latest batch on its way to the store; and once
      no batch is on its way and nothing is left to write, it is stored. */
  lemma {:induction false} RecordsAreStored(st: Setting, ws: seq<World>, steps: seq<Step>, k: nat, r: Record)
    requires Run(st, ws, steps) && k < |ws| && r in ws[k].guard.records && r.Within(st.cfg.repeatWindow, ws[k].now)
    ensures OnItsWay(ws[k], r)
    ensures ws[k].states.None? && ws[k].saving.None? && ws[k].shelf.restored && !Unwritten(ws[k].shelf) ==>
              r in ws[k].stored
  {
    hide Enabled, Next, HistoryOK, JobOK, SampleOK, QuietOK, KeepOK;
    HandedReachable(st, ws, steps, k);
    Reachable(st, ws, steps, k);
  }

  /** Until the store has been read nothing is written over it. */
  lemma {:induction false} ReadBeforeWrite(st: Setting, ws: seq<World>, steps: seq<Step>, k: nat)
    requires Run(st, ws, steps) && k < |ws| && !ws[k].shelf.restored
    ensures ws[k].stored == ws[0].stored && ws[k].writing.None?
  {
    hide Next, Enabled;
    if k > 0 {
      var (w, step) := (ws[k - 1], steps[k - 1]);
      assert ws[k] == Next(st, w, step);
      NotYetRestored(st, w, step);
      ReadBeforeWrite(st, ws, steps, k - 1);
    }
  }

  lemma {:induction false} NotYetRestored(st: Setting, w: World, step: Step)
    requires Enabled(st, w, step) && !Next(st, w, step).shelf.restored
    ensures !w.shelf.restored
    ensures w.writing.None? ==> Next(st, w, step).stored == w.stored && Next(st, w, step).writing.None?
  {
    if step.Beat? {
      var w1 := w.(now := step.at);
      CollectStays(st, w1, step.pick);
      var w2 := Collect(st, w1, step.pick);
      ReadServicesStays(st, w2, step.samples);
      ReadHostStays(st, ReadServices(st, w2, step.samples), step.host, step.culprit);
    }
    hide Collect, ReadServices, ReadHost, Worst, All, Without, Prune;
  }

  /** The end of an action: unless the guard is stopping and it failed, its result waits
      for the loop, with the record it was started with, as a kill if it came to that. */
  lemma {:induction false} FinishSays(st: Setting, ws: seq<World>, steps: seq<Step>, k: nat)
    requires Run(st, ws, steps) && k < |steps| && steps[k].Finish?
    ensures var (w, v, step) := (ws[k], ws[k + 1], steps[k]);
            && w.running.Some? && v.running.None? && v.guard == w.guard
            && if w.stopping && !step.ok then v.results == w.results
               else
                 && v.results.Some? && v.results.value.job == w.running.value && v.results.value.ok == step.ok
                 && var (r, started) := (v.results.value.record, w.running.value.record);
                    && r.action == (if step.killed then Kill else started.action)
                    && r.serviceID == started.serviceID && r.name == started.name && r.at == started.at
                    && r.before == started.before && r.act == started.act
  {
    assert ws[k + 1] == Next(st, ws[k], steps[k]);
  }

  /** What is stored changes only by a write that succeeds, and then to what was on the
      shelf when it began; after a failed one there is as much left to write as
      before. */
  lemma {:induction false} StoredBySuccess(st: Setting, ws: seq<World>, steps: seq<Step>, k: nat)
    requires Run(st, ws, steps) && k < |steps|
    ensures var (w, v, step) := (ws[k], ws[k + 1], steps[k]);
            && (step.WriteEnd? ==> w.writing.Some? && v.writing.None?)
            && (step.WriteEnd? && step.ok ==> v.stored == w.writing.value.records)
            && (!(step.WriteEnd? && step.ok) ==> v.stored == w.stored)
            && (step.WriteEnd? && !step.ok ==> v.shelf == w.shelf)
            && (step.WriteBegin? ==>
                  v.writing.Some? && v.writing.value.version == v.shelf.version
                  && forall r :: r in v.writing.value.records && r.Within(st.cfg.repeatWindow, v.now) <==>
                       (r in v.shelf.records || r in v.shelf.late) && r.Within(st.cfg.repeatWindow, v.now))
  {
    var (w, v, step) := (ws[k], ws[k + 1], steps[k]);
    assert v == Next(st, w, step);
    if step.Beat? {
      var w1 := w.(now := step.at);
      CollectStays(st, w1, step.pick);
      var w2 := Collect(st, w1, step.pick);
      ReadServicesStays(st, w2, step.samples);
      ReadHostStays(st, ReadServices(st, w2, step.samples), step.host, step.culprit);
    }
    hide Collect, ReadServices, ReadHost, Worst, Without, Prune;
  }
}
