/** What every run of the alert engine keeps: readings in any order for any keys,
    keys cleared, stored conditions merged, and messages dropped from the queue. An
    Apply of several readings is the same as the readings one after another. */
module EngineRuns {
  import opened Engine

  datatype Plan = Plan(interval: nat, threshold: int)

  /** Each key's check has its interval and threshold. */
  type Plans = string -> Plan

  /** A streak begun by a Bad reading in this process: its Bad readings, and when
      the first came. */
  datatype Streak = Streak(bads: nat, first: Time)

  /** What happened to the keys, in order; `Loaded` holds those merged open. */
  datatype Entry =
    | Raised(key: string)
    | Closed(key: string)
    | Reopened(key: string)
    | Cleared(keys: set<string>)
    | Loaded(keys: set<string>)

  predicate Opens(e: Entry, key: string) { e == Raised(key) || (e.Loaded? && key in e.keys) }
  predicate Closes(e: Entry, key: string) { e == Closed(key) || e == Reopened(key) || (e.Cleared? && key in e.keys) }

  /** Of the entries about the key the last one opened it. */
  predicate OpenIn(log: seq<Entry>, key: string) {
    log != [] &&
    var n := |log| - 1;
    Opens(log[n], key) || (!Closes(log[n], key) && OpenIn(log[..n], key))
  }

  /** `streaks`, `log` and `reopened` (the dropped messages that reopened their
      condition) are kept by no field of the program; `listed` is what was handed on
      as undelivered. */
  datatype World = World(
    now: Time, conds: Conditions, streaks: map<string, Streak>, log: seq<Entry>,
    listed: seq<Message>, reopened: seq<Message>)

  const START := World(0, map[], map[], [], [], [])

  datatype Step =
    | Read(at: Time, check: string, r: Reading)
    | Forget(at: Time, keys: set<string>)
    | Load(at: Time, stored: seq<Condition>)
    | DropOne(at: Time, m: Message)

  function Note(alerts: seq<Alert>): seq<Entry> {
    if |alerts| == 1 && alerts[0].kind.Problem? then [Raised(alerts[0].key)]
    else if |alerts| == 1 && alerts[0].kind.Resolved? then [Closed(alerts[0].key)]
    else []
  }

  function Counted(w: World, at: Time, r: Reading): map<string, Streak> {
    if r.event || r.verdict.Unknown? then w.streaks
    else if r.verdict.Good? then w.streaks - {r.key}
    else if r.key !in w.conds then w.streaks[r.key := Streak(1, at)]
    else if r.key in w.streaks then w.streaks[r.key := Streak(w.streaks[r.key].bads + 1, w.streaks[r.key].first)]
    else w.streaks
  }

  function LoadedOpen(conds: Conditions, stored: seq<Condition>): set<string> {
    var merged := Merge(conds, stored);
    set k | k in merged && k !in conds && merged[k].open
  }

  function Next(plans: Plans, w: World, step: Step): World {
    match step
    case Read(at, check, r) =>
      var (conds, alerts) := ApplyOne(w.conds, at, check, plans(r.key).interval, plans(r.key).threshold, r);
      World(at, conds, Counted(w, at, r), w.log + Note(alerts), w.listed, w.reopened)
    case Forget(at, keys) => World(at, w.conds - keys, w.streaks - keys, w.log + [Cleared(keys)], w.listed, w.reopened)
    case Load(at, stored) =>
      World(at, Merge(w.conds, stored), w.streaks, w.log + [Loaded(LoadedOpen(w.conds, stored))], w.listed, w.reopened)
    case DropOne(at, m) =>
      var (conds, list) := Drop(w.conds, m);
      World(at, conds, w.streaks, if conds == w.conds then w.log else w.log + [Reopened(m.key)],
            if list then w.listed + [m] else w.listed, if conds == w.conds then w.reopened else w.reopened + [m])
  }

  ghost predicate Run(plans: Plans, ws: seq<World>, steps: seq<Step>) {
    && |ws| == |steps| + 1 && ws[0] == START
    && forall i :: 0 <= i < |steps| ==>
         steps[i].at >= ws[i].now && steps[i].at > 0 && ws[i + 1] == Next(plans, ws[i], steps[i])
  }

  /** The readings of one Apply, one after another. */
  function ReadAll(plans: Plans, w: World, at: Time, check: string, rs: seq<Reading>): World {
    if rs == [] then w
    else Next(plans, ReadAll(plans, w, at, check, rs[..|rs| - 1]), Read(at, check, rs[|rs| - 1]))
  }

  lemma {:induction false} ApplyIsReadings(plans: Plans, w: World, at: Time, check: string, p: Plan, rs: seq<Reading>)
    requires forall i :: 0 <= i < |rs| ==> plans(rs[i].key) == p
    ensures ReadAll(plans, w, at, check, rs).conds == ApplyAll(w.conds, at, check, p.interval, p.threshold, rs).0
    ensures ReadAll(plans, w, at, check, rs).log ==
            w.log + Notes(ApplyAll(w.conds, at, check, p.interval, p.threshold, rs).1)
  {
    hide ApplyOne, Counted, Note, Notes;
    if rs == [] {
      NoNotes(w.log);
    } else {
      var n := |rs| - 1;
      ApplyIsReadings(plans, w, at, check, p, rs[..n]);
      var (before, out) := ApplyAll(w.conds, at, check, p.interval, p.threshold, rs[..n]);
      var more := ApplyOne(before, at, check, p.interval, p.threshold, rs[n]).1;
      AtMostOne(before, at, check, p.interval, p.threshold, rs[n]);
      NotesAfter(out, more);
      assert w.log + (Notes(out) + Note(more)) == (w.log + Notes(out)) + Note(more);
    }
  }

  lemma {:induction false} NoNotes(log: seq<Entry>)
    ensures Notes([]) == [] && log + Notes([]) == log
  {
  }

  /** The notes of a list of alerts, in order. */
  function Notes(alerts: seq<Alert>): seq<Entry> {
    if alerts == [] then [] else Notes(alerts[..|alerts| - 1]) + Note([alerts[|alerts| - 1]])
  }

  lemma {:induction false} AtMostOne(
    conds: Conditions, at: Time, check: string, interval: int, threshold: int, r: Reading)
    ensures |ApplyOne(conds, at, check, interval, threshold, r).1| <= 1
  {
  }

  lemma {:induction false} NotesAfter(out: seq<Alert>, more: seq<Alert>)
    requires |more| <= 1
    ensures Notes(out + more) == Notes(out) + Note(more)
  {
    if more == [] {
      assert out + more == out;
    } else {
      assert (out + more)[..|out|] == out && more == [more[0]];
    }
  }

  // ---------------------------------------------------------------- open and closed

  predicate IsOpen(conds: Conditions, key: string) { key in conds && conds[key].open }

  ghost predicate OpenOK(conds: Conditions, log: seq<Entry>) {
    forall key :: IsOpen(conds, key) <==> OpenIn(log, key)
  }

  ghost predicate LogOK(log: seq<Entry>) {
    forall i :: 0 <= i < |log| ==>
      && (log[i].Raised? ==> !OpenIn(log[..i], log[i].key))
      && (log[i].Closed? ==> OpenIn(log[..i], log[i].key))
  }

  lemma {:induction false} OpenAfter(log: seq<Entry>, e: Entry, key: string)
    ensures OpenIn(log + [e], key) <==> Opens(e, key) || (!Closes(e, key) && OpenIn(log, key))
  {
    assert (log + [e])[..|log|] == log;
  }

  lemma {:induction false} LogAfter(log: seq<Entry>, e: Entry)
    requires LogOK(log)
    requires e.Raised? ==> !OpenIn(log, e.key)
    requires e.Closed? ==> OpenIn(log, e.key)
    ensures LogOK(log + [e])
  {
    hide OpenIn;
    var more := log + [e];
    forall i | 0 <= i < |more|
      ensures (more[i].Raised? ==> !OpenIn(more[..i], more[i].key)) &&
              (more[i].Closed? ==> OpenIn(more[..i], more[i].key))
    {
      assert more[..i] == log[..i];
      if i == |log| { assert log[..i] == log; }
    }
  }

  /** What one reading does to every key's openness. */
  lemma {:induction false} ReadOpens(conds: Conditions, at: Time, check: string, p: Plan, r: Reading, key: string)
    ensures var (after, alerts) := ApplyOne(conds, at, check, p.interval, p.threshold, r);
            var note := Note(alerts);
            if note == [] then IsOpen(after, key) <==> IsOpen(conds, key)
            else
              && |note| == 1 && (note[0] == Raised(r.key) || note[0] == Closed(r.key))
              && (note[0].Raised? <==> !IsOpen(conds, r.key))
              && (IsOpen(after, key) <==> if key == r.key then note[0].Raised? else IsOpen(conds, key))
  {
  }

  lemma {:induction false} ReadKeeps(plans: Plans, w: World, at: Time, check: string, r: Reading)
    requires OpenOK(w.conds, w.log) && LogOK(w.log)
    ensures var v := Next(plans, w, Read(at, check, r)); OpenOK(v.conds, v.log) && LogOK(v.log)
  {
    hide OpenIn, LogOK, ApplyOne, IsOpen, Counted;
    var v := Next(plans, w, Read(at, check, r));
    var p := plans(r.key);
    var note := Note(ApplyOne(w.conds, at, check, p.interval, p.threshold, r).1);
    ReadOpens(w.conds, at, check, p, r, r.key);
    if note == [] { assert v.log == w.log; } else { LogAfter(w.log, note[0]); }
    forall key ensures IsOpen(v.conds, key) <==> OpenIn(v.log, key) {
      ReadOpens(w.conds, at, check, p, r, key);
      if note != [] {
        assert v.log == w.log + [note[0]];
        OpenAfter(w.log, note[0], key);
      }
    }
  }

  lemma {:induction false} MergeAdds(conds: Conditions, stored: seq<Condition>)
    ensures conds.Keys <= Merge(conds, stored).Keys
    ensures forall k :: k in conds ==> Merge(conds, stored)[k] == conds[k]
  {
    if stored != [] { MergeAdds(conds, stored[..|stored| - 1]); }
  }

  lemma {:induction false} OthersKeep(plans: Plans, w: World, step: Step)
    requires OpenOK(w.conds, w.log) && LogOK(w.log) && !step.Read?
    ensures var v := Next(plans, w, step); OpenOK(v.conds, v.log) && LogOK(v.log)
  {
    hide OpenIn, LogOK, Merge;
    var v := Next(plans, w, step);
    if step.Load? { MergeAdds(w.conds, step.stored); }
    if v.log != w.log {
      var e := v.log[|w.log|];
      assert v.log == w.log + [e];
      LogAfter(w.log, e);
      forall key ensures IsOpen(v.conds, key) <==> OpenIn(v.log, key) { OpenAfter(w.log, e, key); }
    }
  }

  lemma {:induction false} LogReachable(plans: Plans, ws: seq<World>, steps: seq<Step>, k: nat)
    requires Run(plans, ws, steps) && k < |ws|
    ensures OpenOK(ws[k].conds, ws[k].log) && LogOK(ws[k].log)
  {
    hide OpenOK, LogOK, Next;
    if k == 0 {
      StartOK();
    } else {
      LogReachable(plans, ws, steps, k - 1);
      var step := steps[k - 1];
      if step.Read? {
        ReadKeeps(plans, ws[k - 1], step.at, step.check, step.r);
      } else {
        OthersKeep(plans, ws[k - 1], step);
      }
    }
  }

  lemma {:induction false} StartOK()
    ensures OpenOK(map[], []) && LogOK([])
  {
  }

  /** From the entry that opened a key to the end no entry closed it. */
  ghost predicate OpenSince(log: seq<Entry>, key: string, j: nat) {
    j < |log| && Opens(log[j], key) && forall m :: j < m < |log| ==> !Closes(log[m], key)
  }

  lemma {:induction false} OpenMeans(log: seq<Entry>, key: string)
    ensures OpenIn(log, key) <==> exists j :: OpenSince(log, key, j)
  {
    if log != [] {
      var n := |log| - 1;
      OpenMeans(log[..n], key);
      if Opens(log[n], key) { assert OpenSince(log, key, n); }
      if OpenIn(log[..n], key) && !Closes(log[n], key) {
        var j :| OpenSince(log[..n], key, j);
        assert OpenSince(log, key, j);
      }
      if j: nat :| OpenSince(log, key, j) && j < n { assert OpenSince(log[..n], key, j); }
    }
  }

  /** A RESOLVED only follows an open PROBLEM: one raised, or merged open, that
      nothing has ended since. */
  lemma {:induction false} ResolvedFollowsProblem(
    plans: Plans, ws: seq<World>, steps: seq<Step>, k: nat, i: nat, key: string)
    requires Run(plans, ws, steps) && k < |ws| && i < |ws[k].log| && ws[k].log[i] == Closed(key)
    ensures exists j :: OpenSince(ws[k].log[..i], key, j)
  {
    hide OpenIn, OpenOK;
    LogReachable(plans, ws, steps, k);
    OpenMeans(ws[k].log[..i], key);
  }

  /** Between two PROBLEMs of a key lies its RESOLVED, a Clear or a Reopen. */
  lemma {:induction false} ProblemsApart(
    plans: Plans, ws: seq<World>, steps: seq<Step>, k: nat, i: nat, j: nat, key: string)
    requires Run(plans, ws, steps) && k < |ws| && i < j < |ws[k].log|
    requires ws[k].log[i] == Raised(key) && ws[k].log[j] == Raised(key)
    ensures exists m :: i < m < j && Closes(ws[k].log[m], key)
  {
    hide OpenIn, OpenOK;
    LogReachable(plans, ws, steps, k);
    var log := ws[k].log[..j];
    OpenMeans(log, key);
    assert !OpenSince(log, key, i);
    var m :| i < m < |log| && Closes(log[m], key);
    assert Closes(ws[k].log[m], key);
  }

  // ---------------------------------------------------------------- bad time

  /** A streak begun here counts at most one and a half intervals per Bad reading
      after its first, and no more than the time since that first. */
  ghost predicate StreakOK(p: Plan, c: Condition, s: Streak) {
    && s.bads >= 1 && 0 < s.first <= c.lastReadingAt && c.streakStart <= s.first
    && 0 <= c.badFor <= GapCap(p.interval) * (s.bads - 1)
    && c.badFor <= c.lastReadingAt - s.first
    && (c.open ==> c.badFor >= p.threshold)
  }

  ghost predicate StreaksOK(plans: Plans, w: World) {
    && (forall k :: k in w.streaks ==> k in w.conds && StreakOK(plans(k), w.conds[k], w.streaks[k]))
    && (forall k :: k in w.streaks ==> w.conds[k].lastReadingAt <= w.now)
  }

  lemma {:induction false} OneMoreBad(p: Plan, c: Condition, s: Streak, at: Time, added: int, d: Condition)
    requires StreakOK(p, c, s) && at >= c.lastReadingAt && 0 <= added <= GapCap(p.interval) &&
             added <= at - c.lastReadingAt
    requires d.badFor == c.badFor + added && d.lastReadingAt == at && d.streakStart == c.streakStart
    requires d.open == (c.open || d.badFor >= p.threshold)
    ensures StreakOK(p, d, Streak(s.bads + 1, s.first))
  {
    var cap := GapCap(p.interval);
    assert cap * (s.bads - 1) + cap == cap * s.bads;
  }

  lemma {:induction false} BadMakes(conds: Conditions, at: Time, check: string, p: Plan, r: Reading)
    ensures var (after, _) := OnBad(conds, at, check, p.interval, p.threshold, r);
            && after.Keys == conds.Keys + {r.key}
            && (forall k :: k in conds && k != r.key ==> after[k] == conds[k])
            && var d := after[r.key];
               && d.lastReadingAt == at
               && (r.key !in conds ==> d.badFor == 0 && d.open == (0 >= p.threshold) && d.streakStart <= at)
               && (r.key in conds ==> d.streakStart == conds[r.key].streakStart)
               && (r.key in conds && conds[r.key].lastReadingAt != 0 ==>
                     var c := conds[r.key];
                     && d.badFor >= c.badFor && d.badFor - c.badFor <= GapCap(p.interval)
                     && (at >= c.lastReadingAt ==> d.badFor - c.badFor <= at - c.lastReadingAt)
                     && d.open == (c.open || d.badFor >= p.threshold))
  {
    assert GapCap(p.interval) >= 0;
  }

  lemma {:induction false} BadStreaks(plans: Plans, w: World, at: Time, check: string, r: Reading)
    requires StreaksOK(plans, w) && at >= w.now && at > 0 && !r.event && r.verdict.Bad?
    ensures StreaksOK(plans, Next(plans, w, Read(at, check, r)))
  {
    hide OnBad, StreakOK, Note, GapCap;
    var p := plans(r.key);
    BadMakes(w.conds, at, check, p, r);
    var v := Next(plans, w, Read(at, check, r));
    assert v.conds == OnBad(w.conds, at, check, p.interval, p.threshold, r).0;
    if r.key in w.conds && r.key in w.streaks {
      var (c, s) := (w.conds[r.key], w.streaks[r.key]);
      StreakStarted(p, c, s);
      OneMoreBad(p, c, s, at, v.conds[r.key].badFor - c.badFor, v.conds[r.key]);
    }
    if r.key !in w.conds { FirstBad(p, v.conds[r.key], at); }
  }

  lemma {:induction false} StreakStarted(p: Plan, c: Condition, s: Streak)
    requires StreakOK(p, c, s)
    ensures c.lastReadingAt != 0
  {
  }

  lemma {:induction false} FirstBad(p: Plan, d: Condition, at: Time)
    requires d.lastReadingAt == at > 0 && d.badFor == 0 && d.open == (0 >= p.threshold) && d.streakStart <= at
    ensures StreakOK(p, d, Streak(1, at))
  {
    assert GapCap(p.interval) * 0 == 0;
  }

  lemma {:induction false} StreakReopens(p: Plan, c: Condition, s: Streak)
    requires StreakOK(p, c, s)
    ensures StreakOK(p, c.(open := false, openedAt := 0), s)
  {
  }

  lemma {:induction false} StreakSteps(plans: Plans, w: World, step: Step)
    requires StreaksOK(plans, w) && step.at >= w.now && step.at > 0
    ensures StreaksOK(plans, Next(plans, w, step))
  {
    if step.Read? && !step.r.event && step.r.verdict.Bad? {
      BadStreaks(plans, w, step.at, step.check, step.r);
    } else {
      if step.Load? { MergeAdds(w.conds, step.stored); }
      if step.DropOne? && step.m.key in w.streaks {
        StreakReopens(plans(step.m.key), w.conds[step.m.key], w.streaks[step.m.key]);
      }
      hide StreakOK, Merge, Note, LoadedOpen;
    }
  }

  lemma {:induction false} StreaksReachable(plans: Plans, ws: seq<World>, steps: seq<Step>, k: nat)
    requires Run(plans, ws, steps) && k < |ws|
    ensures StreaksOK(plans, ws[k])
  {
    hide StreaksOK, Next;
    if k > 0 {
      StreaksReachable(plans, ws, steps, k - 1);
      StreakSteps(plans, ws[k - 1], steps[k - 1]);
    } else {
      NoStreaks(plans);
    }
  }

  lemma {:induction false} NoStreaks(plans: Plans)
    ensures StreaksOK(plans, START)
  {
  }

  /** The bad time of a condition whose streak began here. */
  lemma {:induction false} BadTimeIsCapped(plans: Plans, ws: seq<World>, steps: seq<Step>, k: nat, key: string)
    requires Run(plans, ws, steps) && k < |ws| && key in ws[k].streaks
    ensures key in ws[k].conds
    ensures var (c, s, p) := (ws[k].conds[key], ws[k].streaks[key], plans(key));
            && 2 * c.badFor <= 3 * p.interval * (s.bads - 1)
            && c.badFor <= c.lastReadingAt - s.first && c.streakStart <= s.first
            && (c.open ==> c.badFor >= p.threshold)
  {
    hide Next;
    StreaksReachable(plans, ws, steps, k);
    var (s, p) := (ws[k].streaks[key], plans(key));
    Halves(p.interval, s.bads - 1);
  }

  lemma {:induction false} Halves(interval: nat, n: nat)
    ensures 2 * (GapCap(interval) * n) <= 3 * interval * n
  {
    assert 2 * GapCap(interval) <= 3 * interval;
    if n > 0 { Halves(interval, n - 1); }
  }

  // ---------------------------------------------------------------- the next Bad reading

  /** The step reads the key Bad or Good, or forgets it. */
  predicate Touches(step: Step, key: string) {
    || (step.Read? && !step.r.event && !step.r.verdict.Unknown? && step.r.key == key)
    || (step.Forget? && key in step.keys)
  }

  predicate ReadsBad(step: Step, key: string) {
    step.Read? && !step.r.event && step.r.verdict.Bad? && step.r.key == key
  }

  /** What a Bad reading at `at` adds to the bad time. */
  function Gain(c: Condition, at: Time, interval: int): (g: int)
    ensures g >= 0
  {
    if c.lastReadingAt == 0 || at <= c.lastReadingAt || GapCap(interval) <= 0 then 0
    else if at - c.lastReadingAt <= GapCap(interval) then at - c.lastReadingAt
    else GapCap(interval)
  }

  /** A tracked condition that is closed is raised by its next Bad reading exactly
      when its bad time, with what the reading adds, reaches the threshold. */
  lemma {:induction false} RaisedExactly(plans: Plans, w: World, step: Step, key: string)
    requires key in w.conds && !w.conds[key].open && ReadsBad(step, key)
    ensures var (c, p) := (w.conds[key], plans(key));
            var raised := c.badFor + Gain(c, step.at, p.interval) >= p.threshold;
            && Next(plans, w, step).log == (if raised then w.log + [Raised(key)] else w.log)
            && IsOpen(Next(plans, w, step).conds, key) == raised
  {
    assert Aged(w.conds, step.at, step.check, plans(key).interval, step.r).badFor ==
           w.conds[key].badFor + Gain(w.conds[key], step.at, plans(key).interval);
    assert w.log + [] == w.log;
  }

  /** Until a step touches it a closed condition stays as it is. */
  lemma {:induction false} ClosedStays(plans: Plans, w: World, step: Step, key: string)
    requires key in w.conds && !w.conds[key].open && !Touches(step, key)
    ensures key in Next(plans, w, step).conds && Next(plans, w, step).conds[key] == w.conds[key]
  {
    if step.Load? { MergeAdds(w.conds, step.stored); }
    hide Merge, Note, LoadedOpen;
  }

  lemma {:induction false} ClosedLasts(plans: Plans, ws: seq<World>, steps: seq<Step>, i: nat, k: nat, key: string)
    requires Run(plans, ws, steps) && i <= k <= |steps| && key in ws[i].conds && !ws[i].conds[key].open
    requires forall j :: i <= j < k ==> !Touches(steps[j], key)
    ensures key in ws[k].conds && ws[k].conds[key] == ws[i].conds[key]
  {
    hide Next, Touches;
    if i < k {
      ClosedLasts(plans, ws, steps, i, k - 1, key);
      ClosedStays(plans, ws[k - 1], steps[k - 1], key);
    }
  }

  // ---------------------------------------------------------------- dropped PROBLEMs

  /** k is the first step after i that touches the key. */
  ghost predicate NextTouch(steps: seq<Step>, i: nat, k: nat, key: string) {
    i < k < |steps| && Touches(steps[k], key) && forall j :: i < j < k ==> !Touches(steps[j], key)
  }

  /** The message is of its key's current streak, still open; the store keeps times
      in whole seconds, so they are compared at that precision. */
  predicate OfOpenStreak(conds: Conditions, m: Message) {
    IsOpen(conds, m.key) && m.createdAt / SECOND >= conds[m.key].streakStart / SECOND
  }

  lemma {:induction false} Reopens(plans: Plans, w: World, step: Step)
    requires step.DropOne? && step.m.problem
    ensures var (v, m) := (Next(plans, w, step), step.m);
            if OfOpenStreak(w.conds, m) then
              && v.listed == w.listed && v.reopened == w.reopened + [m]
              && v.conds == w.conds[m.key := w.conds[m.key].(open := false, openedAt := 0)]
              && v.log == w.log + [Reopened(m.key)]
            else v.listed == w.listed + [m] && v.reopened == w.reopened && v.conds == w.conds && v.log == w.log
  {
    var (v, m) := (Next(plans, w, step), step.m);
    if IsOpen(w.conds, m.key) {
      SameSecond(m.createdAt, w.conds[m.key].streakStart);
      assert v.conds != w.conds <==> !v.conds[m.key].open;
    }
  }

  lemma {:induction false} SameSecond(a: Time, b: Time)
    ensures a >= Truncate(b) <==> a / SECOND >= b / SECOND
  {
  }

  /** A Good reading or a Clear ends a closed condition without a word. */
  lemma {:induction false} EndsUnheard(plans: Plans, w: World, step: Step, key: string)
    requires key in w.conds && !w.conds[key].open && Touches(step, key) && !ReadsBad(step, key)
    ensures var v := Next(plans, w, step);
            && key !in v.conds && v.listed == w.listed && v.reopened == w.reopened
            && (v.log == w.log || exists keys :: v.log == w.log + [Cleared(keys)])
  {
    assert w.log + [] == w.log;
  }

  /** In every run a dropped PROBLEM reopens its condition exactly when that is open
      and the message is of its current streak; otherwise it is listed. */
  lemma {:induction false} DroppedReopensExactly(plans: Plans, ws: seq<World>, steps: seq<Step>, i: nat)
    requires Run(plans, ws, steps) && i < |steps| && steps[i].DropOne? && steps[i].m.problem
    ensures var (w, v, m) := (ws[i], ws[i + 1], steps[i].m);
            if && m.key in w.conds && w.conds[m.key].open
               && m.createdAt / SECOND >= w.conds[m.key].streakStart / SECOND
            then
              && v.listed == w.listed && v.reopened == w.reopened + [m] && v.log == w.log + [Reopened(m.key)]
              && m.key in v.conds && !v.conds[m.key].open
            else v.listed == w.listed + [m] && v.reopened == w.reopened && v.conds == w.conds && v.log == w.log
  {
    hide Next;
    Reopens(plans, ws[i], steps[i]);
  }

  /** What becomes of a reopened condition at the first step k that touches it. A Bad
      reading raises it again exactly when the bad time it had, with what the
      reading adds, reaches the threshold. Any other step ends it unheard. */
  lemma {:induction false} ReopenedEnds(plans: Plans, ws: seq<World>, steps: seq<Step>, i: nat, k: nat)
    requires Run(plans, ws, steps) && i < |steps| && steps[i].DropOne? && steps[i].m.problem
    requires ws[i + 1].listed == ws[i].listed && NextTouch(steps, i, k, steps[i].m.key)
    ensures var (key, c) := (steps[i].m.key, ws[i].conds);
            && key in c
            && (ws[k + 1].log == ws[k].log + [Raised(key)] <==>
                ReadsBad(steps[k], key)
                && c[key].badFor + Gain(c[key], steps[k].at, plans(key).interval) >= plans(key).threshold)
            && (!ReadsBad(steps[k], key) ==> key !in ws[k + 1].conds && ws[k + 1].listed == ws[k].listed)
  {
    hide Next, Gain, Touches, ReadsBad;
    Reopens(plans, ws[i], steps[i]);
    var key := steps[i].m.key;
    ClosedLasts(plans, ws, steps, i + 1, k, key);
    assert ws[k + 1] == Next(plans, ws[k], steps[k]);
    assert ws[k].log != ws[k].log + [Raised(key)];
    if ReadsBad(steps[k], key) {
      RaisedExactly(plans, ws[k], steps[k], key);
      SameGain(ws[i].conds[key], steps[k].at, plans(key).interval);
    } else {
      EndsUnheard(plans, ws[k], steps[k], key);
      assert forall keys :: (ws[k].log + [Cleared(keys)])[|ws[k].log|] != Raised(key);
    }
  }

  lemma {:induction false} SameGain(c: Condition, at: Time, interval: int)
    ensures Gain(c.(open := false, openedAt := 0), at, interval) == Gain(c, at, interval)
  {
  }

  // ---------------------------------------------------------------- stored conditions

  /** An open condition has reached its threshold. */
  predicate RowOK(plans: Plans, c: Condition) {
    c.badFor >= 0 && (c.open ==> c.badFor >= plans(c.key).threshold)
  }

  /** Every condition read from the store had, when it was open. */
  ghost predicate SoundLoads(plans: Plans, steps: seq<Step>) {
    forall i :: 0 <= i < |steps| && steps[i].Load? ==>
      forall j :: 0 <= j < |steps[i].stored| ==> RowOK(plans, steps[i].stored[j])
  }

  ghost predicate ReachedOK(plans: Plans, conds: Conditions) {
    forall k :: k in conds ==> conds[k].key == k && RowOK(plans, conds[k])
  }

  lemma {:induction false} MergeReached(plans: Plans, conds: Conditions, stored: seq<Condition>)
    requires ReachedOK(plans, conds) && forall j :: 0 <= j < |stored| ==> RowOK(plans, stored[j])
    ensures ReachedOK(plans, Merge(conds, stored))
  {
    hide RowOK;
    if stored != [] { MergeReached(plans, conds, stored[..|stored| - 1]); }
  }

  lemma {:induction false} NextReached(plans: Plans, w: World, step: Step)
    requires ReachedOK(plans, w.conds)
    requires step.Load? ==> forall j :: 0 <= j < |step.stored| ==> RowOK(plans, step.stored[j])
    ensures ReachedOK(plans, Next(plans, w, step).conds)
  {
    if step.Load? { MergeReached(plans, w.conds, step.stored); }
    hide Merge, Note, LoadedOpen, Counted;
  }

  lemma {:induction false} ReachedReachable(plans: Plans, ws: seq<World>, steps: seq<Step>, k: nat)
    requires Run(plans, ws, steps) && SoundLoads(plans, steps) && k < |ws|
    ensures ReachedOK(plans, ws[k].conds)
  {
    hide Next, ReachedOK, RowOK;
    if k == 0 {
      NoneReached(plans);
    } else {
      ReachedReachable(plans, ws, steps, k - 1);
      NextReached(plans, ws[k - 1], steps[k - 1]);
    }
  }

  lemma {:induction false} NoneReached(plans: Plans)
    ensures ReachedOK(plans, map[])
  {
  }

  /** Where every stored condition had reached its threshold, a dropped PROBLEM that
      reopened its condition is raised again exactly when the first step that
      touches its key is a Bad reading. Otherwise its condition ends, and it is neither
      raised again nor listed. */
  lemma {:induction false} ReopenedExactly(plans: Plans, ws: seq<World>, steps: seq<Step>, i: nat, k: nat)
    requires Run(plans, ws, steps) && SoundLoads(plans, steps)
    requires i < |steps| && steps[i].DropOne? && steps[i].m.problem
    requires ws[i + 1].listed == ws[i].listed && NextTouch(steps, i, k, steps[i].m.key)
    ensures var key := steps[i].m.key;
            && (ws[k + 1].log == ws[k].log + [Raised(key)] <==> ReadsBad(steps[k], key))
            && (!ReadsBad(steps[k], key) ==> key !in ws[k + 1].conds && ws[k + 1].listed == ws[k].listed)
  {
    hide Next, Touches, ReadsBad, SoundLoads;
    ReopenedEnds(plans, ws, steps, i, k);
    DroppedReopensExactly(plans, ws, steps, i);
    ReachedReachable(plans, ws, steps, i);
  }
}
