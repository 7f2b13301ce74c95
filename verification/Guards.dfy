/** The guard's own objects: the episode and its records, and the records' shelf.
    Each method is proved to do what the step functions of the models say. */
module Guards {
  import opened Basics
  import opened Episode
  import opened GuardLoop

  /** Keeps the records still within the window, in order. */
  method PruneInto(src: seq<Record>, window: int, now: Time) returns (dst: seq<Record>)
    ensures dst == Prune(src, window, now)
  {
    dst := [];
    assert src[0..] == src;
    for i := 0 to |src|
      invariant Prune(src, window, now) == dst + Prune(src[i..], window, now)
    {
      assert src[i..][1..] == src[i + 1..];
      if src[i].Within(window, now) { dst := dst + [src[i]]; }
    }
  }

  lemma {:induction false} AddNewJoins(merged: seq<Record>, own: seq<Record>, more: seq<Record>, window: int, now: Time)
    ensures AddNew(AddNew(merged, own, window, now), more, window, now) == AddNew(merged, own + more, window, now)
    decreases |own|
  {
    if own == [] {
      assert own + more == more;
    } else {
      assert (own + more)[1..] == own[1..] + more;
      var next := if own[0].Within(window, now) && own[0] !in merged then merged + [own[0]] else merged;
      AddNewJoins(next, own[1..], more, window, now);
    }
  }

  lemma {:induction false} AddNewStep(merged: seq<Record>, both: seq<Record>, i: nat, window: int, now: Time)
    requires i < |both|
    ensures AddNew(merged, both[i..], window, now) ==
            AddNew(if both[i].Within(window, now) && both[i] !in merged then merged + [both[i]] else merged,
                   both[i + 1..], window, now)
  {
    hide NoRepeats;
    assert both[i..][1..] == both[i + 1..];
  }

  method Merged(own: seq<Record>, more: seq<Record>, window: int, now: Time) returns (r: seq<Record>)
    ensures r == MergeRecords(own, more, window, now)
  {
    hide NoRepeats, OldestFirst, SortByAge;
    var both := own + more;
    var merged: seq<Record> := [];
    assert both[0..] == both;
    for i := 0 to |both|
      invariant AddNew(merged, both[i..], window, now) == AddNew([], both, window, now)
    {
      AddNewStep(merged, both, i, window, now);
      if both[i].Within(window, now) && both[i] !in merged { merged := merged + [both[i]]; }
    }
    AddNewJoins([], own, more, window, now);
    r := SortByAge(merged);
  }

  class MemGuard {
    const cfg: Config
    var ep: Episode
    var dangerSince: Time
    var clearSince: Time
    var records: seq<Record>

    constructor (cfg: Config)
      ensures this.cfg == cfg && Now() == START
    {
      this.cfg := cfg;
      ep, dangerSince, clearSince, records := IDLE, 0, 0, [];
    }

    ghost function Now(): Guard
      reads this
    {
      Guard(ep, dangerSince, clearSince, records)
    }

    method Remember(at: Time, r: Record)
      modifies this`records
      ensures records == AddRecord(old(records), cfg.repeatWindow, at, r)
    {
      records := PruneInto(records, cfg.repeatWindow, at);
      records := records + [r];
    }

    method FindAction(id: string, at: Time) returns (action: Action, last: Time)
      ensures (action, last) == ActionFor(records, id, cfg.repeatWindow, at)
    {
      if cfg.repeatWindow <= 0 { return Restart, 0; }
      last := 0;
      for i := 0 to |records|
        invariant last == LastActed(records[..i], id, cfg.repeatWindow, at)
      {
        assert records[..i + 1][..i] == records[..i];
        if Counts(records[i], id, cfg.repeatWindow, at) && records[i].at > last { last := records[i].at; }
      }
      assert records[..|records|] == records;
      action := if last == 0 then Restart else Action.Stop;
    }

    method TrackReading(h: Host) returns (danger: bool)
      modifies this`dangerSince, this`clearSince
      ensures danger == IsDanger(cfg, h) && Now() == Track(cfg, old(Now()), h)
    {
      danger := h.available < cfg.dangerAvailable && h.pressure >= cfg.dangerPressure;
      if danger {
        if dangerSince == 0 { dangerSince := h.at; }
        clearSince := 0;
      } else {
        dangerSince := 0;
        if clearSince == 0 { clearSince := h.at; }
      }
    }

    method JudgeRecovery(h: Host, danger: bool) returns (d: Option<Decision>)
      requires danger == IsDanger(cfg, h)
      modifies this`ep
      ensures (Now(), d) == Recovered(cfg, old(Now()), h)
    {
      d := None;
      if ep.doneAt == 0 || h.at - ep.doneAt < cfg.recoveryWindow { return; }
      if !danger {
        if h.at - clearSince >= cfg.dangerFor { ep := IDLE; }
        return;
      }
      ep := ep.(phase := NotRecovered);
      d := Some(Decision(false, StillDanger, ep.culprit, Some(ep.action), 0, None));
    }

    method PickAction(h: Host, c: Option<Culprit>) returns (d: Decision)
      modifies this`ep, this`records
      ensures (Now(), d) == Decide(cfg, old(Now()), h, c)
    {
      if c.None? {
        ep := ep.(phase := Reported);
        return Decision(false, NoCulprit, None, None, 0, None);
      }
      ep := ep.(culprit := c);
      if c.value.service.protected {
        ep := ep.(phase := Reported);
        return Decision(false, Protected, c, None, 0, None);
      }
      var action, last := FindAction(c.value.service.id, h.at);
      var rec := Record(c.value.service.id, c.value.service.name, action, h.at, c.value.size, false);
      if !cfg.act {
        Remember(h.at, rec);
        ep := ep.(phase := Reported);
        return Decision(false, if action.Stop? then WouldStop else WouldRestart, c, Some(action), last, None);
      }
      rec := rec.(act := true);
      ep := ep.(phase := Acted, action := action, actedAt := h.at);
      d := Decision(true, if action.Stop? then Stopped else Restarted, c, Some(action), last, Some(rec));
    }

    /** `c` is the culprit found at the reading, if any. */
    method ObserveHost(h: Host, c: Option<Culprit>) returns (d: Option<Decision>)
      modifies this
      ensures (Now(), d) == Observe(cfg, old(Now()), h, c)
    {
      var danger := TrackReading(h);
      hide ActionFor, AddRecord, Recovered, Decide;
      d := None;
      if ep.phase.Acted? {
        d := JudgeRecovery(h, danger);
        return;
      }
      if ep.phase.Reported? || ep.phase.NotRecovered? {
        if !danger && h.at - clearSince >= cfg.recoveryWindow { ep := IDLE; }
        return;
      }
      if !danger {
        ep := IDLE;
        return;
      }
      if ep.phase.Idle? { ep := IDLE.(phase := Danger, since := dangerSince); }
      if h.at - dangerSince < cfg.dangerFor { return; }
      var decision := PickAction(h, c);
      d := Some(decision);
    }

    method ActionEnded(at: Time, r: Record, ok: bool)
      modifies this
      ensures Now() == ActionDone(cfg, old(Now()), at, r, ok)
    {
      var current := ep.phase.Acted? && ep.actedAt == r.at;
      if !ok {
        if current { ep := ep.(phase := Reported); }
        return;
      }
      if current { ep := ep.(action := r.action, doneAt := at); }
      Remember(r.at, r);
    }

    method Merge(at: Time, more: seq<Record>)
      modifies this`records
      ensures Now() == old(Now()).(records := MergeRecords(old(records), more, cfg.repeatWindow, at))
    {
      records := Merged(records, more, cfg.repeatWindow, at);
    }

    method Export(at: Time) returns (r: seq<Record>)
      ensures r == Prune(records, cfg.repeatWindow, at)
    {
      r := PruneInto(records, cfg.repeatWindow, at);
    }

    method Restore(at: Time, stored: seq<Record>)
      modifies this`records
      ensures Now() == old(Now()).(records := Prune(stored, cfg.repeatWindow, at))
    {
      records := PruneInto(stored, cfg.repeatWindow, at);
    }
  }

  class GuardState {
    const window: int
    var records: seq<Record>
    var late: seq<Record>
    var started: bool
    var loopSave: bool
    var restored: bool
    var version: nat
    var written: nat

    constructor (window: int)
      ensures this.window == window && Now() == Shelf([], [], false, false, false, 0, 0)
    {
      this.window := window;
      records, late, started, loopSave, restored, version, written := [], [], false, false, false, 0, 0;
    }

    ghost function Now(): Shelf
      reads this
    {
      Shelf(records, late, started, loopSave, restored, version, written)
    }

    method Save(saved: seq<Record>, now: Time)
      modifies this
      ensures Now() == ShelfSave(old(Now()), saved, window, now)
    {
      records, loopSave := saved, true;
      if |late| > 0 {
        var src := late;
        var left: seq<Record> := [];
        assert src[0..] == src;
        for i := 0 to |src|
          invariant Without(src, saved, window, now) == left + Without(src[i..], saved, window, now)
        {
          assert src[i..][1..] == src[i + 1..];
          if src[i].Within(window, now) && src[i] !in saved { left := left + [src[i]]; }
        }
        late := left;
      }
      version := version + 1;
    }

    /** The records read are then handed to the running loop when `handing`. */
    method Restore(read: seq<Record>) returns (handing: bool)
      modifies this
      ensures Now() == ShelfRestore(old(Now()), read) && handing == started == old(started)
    {
      restored := true;
      handing := started;
      if handing {
        late, version := read, version + 1;
      } else if !loopSave {
        records := read;
      }
    }

    method AllRecords(now: Time) returns (r: seq<Record>)
      ensures r == All(Now(), window, now)
    {
      if |late| == 0 { return records; }
      r := Merged(records, late, window, now);
    }

    method ToWrite(now: Time) returns (batch: Option<(seq<Record>, nat)>)
      ensures batch == if Unwritten(Now()) then Some((All(Now(), window, now), version)) else None
    {
      if !restored || version == written { return None; }
      var r := AllRecords(now);
      batch := Some((r, version));
    }

    method MarkWritten(v: nat)
      modifies this`written
      ensures Now() == old(Now()).(written := if v > old(written) then v else old(written))
    {
      if v > written { written := v; }
    }

    method Begin() returns (r: seq<Record>)
      modifies this`started
      ensures Now() == old(Now()).(started := true) && r == records
    {
      started := true;
      r := records;
    }
  }
}
