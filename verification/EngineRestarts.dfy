/** Conditions left open by one process, stored, and taken up by the next. The store
    keeps times in whole seconds. */
module EngineRestarts {
  import opened Engine
  import opened EngineRuns

  /** A row as the store keeps it. */
  function Stored(c: Condition): Condition
    requires c.badFor >= 0
  {
    c.(streakStart := Truncate(c.streakStart), badFor := Truncate(c.badFor),
       lastReadingAt := Truncate(c.lastReadingAt), openedAt := Truncate(c.openedAt))
  }

  predicate WholeSeconds(threshold: int) { threshold <= 0 || threshold % SECOND == 0 }

  lemma {:induction false} StoredReaches(plans: Plans, c: Condition)
    requires RowOK(plans, c) && WholeSeconds(plans(c.key).threshold)
    ensures RowOK(plans, Stored(c))
  {
    var t := plans(c.key).threshold;
    if t > 0 && c.open { assert c.badFor / SECOND >= t / SECOND; }
  }

  /** With thresholds in whole seconds what a process stores is sound to load for the
      next one, restart after restart. */
  lemma {:induction false} RestartsStaySound(plans: Plans, ws: seq<World>, steps: seq<Step>, k: nat, key: string)
    requires Run(plans, ws, steps) && SoundLoads(plans, steps) && k < |ws| && key in ws[k].conds
    requires WholeSeconds(plans(key).threshold)
    ensures ws[k].conds[key].badFor >= 0 && RowOK(plans, Stored(ws[k].conds[key]))
  {
    hide Next, SoundLoads, Stored;
    ReachedReachable(plans, ws, steps, k);
    StoredReaches(plans, ws[k].conds[key]);
  }

  // ---------------------------------------------------------------- left open

  /** A run leaves the condition. */
  ghost predicate Leaves(plans: Plans, ws: seq<World>, steps: seq<Step>, c: Condition) {
    && Run(plans, ws, steps) && (forall i :: 0 <= i < |steps| ==> !steps[i].Load?)
    && c.key in ws[|steps|].conds && ws[|steps|].conds[c.key] == c
  }

  /** Some process that began with an empty store leaves the condition open. */
  ghost predicate LeftOpen(plans: Plans, c: Condition) {
    c.open && exists ws, steps :: Leaves(plans, ws, steps, c)
  }

  /** Without loads every tracked condition's streak began here. */
  lemma {:induction false} OwnStreaks(plans: Plans, ws: seq<World>, steps: seq<Step>, k: nat)
    requires Run(plans, ws, steps) && k < |ws| && forall i :: 0 <= i < |steps| ==> !steps[i].Load?
    ensures forall key :: key in ws[k].conds ==> key in ws[k].streaks
  {
    if k > 0 {
      OwnStreaks(plans, ws, steps, k - 1);
      assert ws[k] == Next(plans, ws[k - 1], steps[k - 1]);
      OwnStreak(plans, ws[k - 1], steps[k - 1]);
    }
  }

  lemma {:induction false} OwnStreak(plans: Plans, w: World, step: Step)
    requires !step.Load? && forall key :: key in w.conds ==> key in w.streaks
    ensures forall key :: key in Next(plans, w, step).conds ==> key in Next(plans, w, step).streaks
  {
    hide Aged, Note;
  }

  /** What is left open reached its threshold within the length of its streak. */
  lemma {:induction false} LeftOpenMeans(plans: Plans, c: Condition)
    requires LeftOpen(plans, c)
    ensures RowOK(plans, c) && 0 <= c.badFor <= c.lastReadingAt - c.streakStart && c.lastReadingAt > 0
    ensures plans(c.key).interval == 0 ==> c.badFor == 0
  {
    hide Run, Next;
    var ws: seq<World>, steps: seq<Step> :| Leaves(plans, ws, steps, c);
    RunLength(plans, ws, steps);
    OwnStreaks(plans, ws, steps, |steps|);
    StreaksReachable(plans, ws, steps, |steps|);
    assert StreakOK(plans(c.key), c, ws[|steps|].streaks[c.key]);
    if plans(c.key).interval == 0 { assert GapCap(0) * (ws[|steps|].streaks[c.key].bads - 1) == 0; }
  }

  lemma {:induction false} RunLength(plans: Plans, ws: seq<World>, steps: seq<Step>)
    requires Run(plans, ws, steps)
    ensures |ws| == |steps| + 1
  {
  }

  // ---------------------------------------------------------------- after the restart

  /** A Bad reading of the condition, no earlier than its last one. */
  predicate ReadAgain(c: Condition, at: Time, r: Reading) {
    at >= c.lastReadingAt && !r.event && r.verdict.Bad? && r.key == c.key
  }

  /** Stored and loaded again, dropped and reopened, it is raised by the reading. */
  predicate RaisedAfterRestart(plans: Plans, c: Condition, at: Time, check: string, r: Reading)
    requires c.badFor >= 0
  {
    var w1 := Next(plans, START, Load(at, [Stored(c)]));
    var w2 := Next(plans, w1, DropOne(at, Message(true, c.key, at)));
    var w3 := Next(plans, w2, Read(at, check, r));
    w2.listed == [] && w3.log == w2.log + [Raised(c.key)]
  }

  lemma {:induction false} RestartRaises(plans: Plans, c: Condition, at: Time, check: string, r: Reading)
    requires c.open && c.badFor >= 0 && c.streakStart <= c.lastReadingAt && ReadAgain(c, at, r)
    ensures RaisedAfterRestart(plans, c, at, check, r) <==>
            Truncate(c.badFor) + Gain(Stored(c), at, plans(c.key).interval) >= plans(c.key).threshold
  {
    var row := Stored(c);
    var w1 := Next(plans, START, Load(at, [row]));
    assert [row][..0] == [];
    assert Merge(map[], [row]) == map[c.key := row];
    assert row.streakStart <= c.streakStart;
    var w2 := Next(plans, w1, DropOne(at, Message(true, c.key, at)));
    assert w2.conds == map[c.key := row.(open := false, openedAt := 0)] && w2.listed == [];
    SameGain(row, at, plans(c.key).interval);
    RaisedExactly(plans, w2, Read(at, check, r), c.key);
    assert w2.log != w2.log + [Raised(c.key)];
    hide Gain, Stored, Merge, Drop;
  }

  // ---------------------------------------------------------------- a run to any bad time

  function BadOf(key: string): Reading { Reading(key, false, Bad, "", 0, "") }

  /** The condition after a first Bad reading at `first` and n more, a nanosecond
      apart, before it opens. */
  function Growing(key: string, first: Time, n: nat): Condition {
    Condition(key, "", first, n, first + n, "", false, 0)
  }

  function Grown(key: string, first: Time, n: nat): World {
    World(first + n, map[key := Growing(key, first, n)], map[key := Streak(n + 1, first)], [], [], [])
  }

  function Readings(key: string, first: Time, n: nat): seq<Step> {
    seq(n + 1, i requires 0 <= i <= n => Read(first + i, "", BadOf(key)))
  }

  lemma {:induction false} GrowsByOne(plans: Plans, key: string, first: Time, n: nat)
    requires first > 0 && plans(key).interval > 0 && n + 1 < plans(key).threshold
    ensures Next(plans, Grown(key, first, n), Read(first + n + 1, "", BadOf(key))) == Grown(key, first, n + 1)
  {
    assert GapCap(plans(key).interval) >= 1;
    assert map[key := Growing(key, first, n)][key := Growing(key, first, n + 1)] ==
           map[key := Growing(key, first, n + 1)];
    assert map[key := Streak(n + 1, first)][key := Streak(n + 2, first)] == map[key := Streak(n + 2, first)];
  }

  lemma {:induction false} GrowsFirst(plans: Plans, key: string, first: Time)
    requires first > 0 && 0 < plans(key).threshold
    ensures Next(plans, START, Read(first, "", BadOf(key))) == Grown(key, first, 0)
  {
  }

  lemma {:induction false} GrowsOpen(plans: Plans, key: string, first: Time, n: nat)
    requires first > 0 && plans(key).interval > 0 && n + 1 == plans(key).threshold
    ensures var w := Next(plans, Grown(key, first, n), Read(first + n + 1, "", BadOf(key)));
            w.conds == map[key := Growing(key, first, n + 1).(open := true, openedAt := first + n + 1)]
  {
    assert GapCap(plans(key).interval) >= 1;
    var c := Growing(key, first, n + 1).(open := true, openedAt := first + n + 1);
    assert map[key := Growing(key, first, n)][key := c] == map[key := c];
  }

  /** A process can leave a condition open with exactly its threshold of bad time and
      its last reading at any time late enough. */
  lemma {:induction false} CanBeLeft(plans: Plans, key: string, last: Time)
    requires 0 < plans(key).threshold < last && plans(key).interval > 0
    ensures var t := plans(key).threshold;
            LeftOpen(plans, Condition(key, "", last - t, t, last, "", true, last))
  {
    hide Next, Grown;
    var t := plans(key).threshold;
    var first := last - t;
    var (ws, steps) := (Worlds(plans, key, first, t), Readings(key, first, t));
    GrowsOpen(plans, key, first, t - 1);
    forall i | 0 <= i < |steps|
      ensures steps[i].at >= ws[i].now && steps[i].at > 0 && ws[i + 1] == Next(plans, ws[i], steps[i])
    {
      GrownStep(plans, key, first, t, i);
    }
    assert Leaves(plans, ws, steps, Condition(key, "", first, t, last, "", true, last));
  }

  /** The worlds those readings go through, the last one open. */
  function Worlds(plans: Plans, key: string, first: Time, t: nat): seq<World>
    requires t > 0
  {
    [START] + seq(t, i requires 0 <= i < t => Grown(key, first, i))
            + [Next(plans, Grown(key, first, t - 1), Read(first + t, "", BadOf(key)))]
  }

  lemma {:induction false} GrownStep(plans: Plans, key: string, first: Time, t: nat, i: nat)
    requires first > 0 && plans(key).interval > 0 && 0 < t == plans(key).threshold && i <= t
    ensures var (w, step) := (Worlds(plans, key, first, t)[i], Readings(key, first, t)[i]);
            step.at >= w.now && step.at > 0 && Worlds(plans, key, first, t)[i + 1] == Next(plans, w, step)
  {
    hide Next;
    if i == 0 {
      GrowsFirst(plans, key, first);
    } else if i < t {
      GrowsByOne(plans, key, first, i - 1);
    }
  }

  // ---------------------------------------------------------------- main results

  /** Everything a process leaves open under the key is raised at once after a
      restart. */
  ghost predicate AlwaysRaised(plans: Plans, key: string) {
    forall c: Condition, at, check, r :: c.key == key ==> RaisedIfRead(plans, c, at, check, r)
  }

  ghost predicate RaisedIfRead(plans: Plans, c: Condition, at: Time, check: string, r: Reading) {
    LeftOpen(plans, c) && ReadAgain(c, at, r) ==>
      c.badFor >= 0 && RaisedAfterRestart(plans, c, at, check, r)
  }

  /** That holds exactly when the threshold is in whole seconds, or bad time never
      counts and so nothing is left open that waited for it. */
  lemma {:induction false} RestartRaisesExactly(plans: Plans, key: string)
    ensures AlwaysRaised(plans, key) <==> WholeSeconds(plans(key).threshold) || plans(key).interval == 0
  {
    hide AlwaysRaised;
    if WholeSeconds(plans(key).threshold) || plans(key).interval == 0 {
      RaisedAtOnce(plans, key);
    } else {
      WaitsAfterRestart(plans, key);
    }
  }

  lemma {:induction false} RaisedAtOnce(plans: Plans, key: string)
    requires WholeSeconds(plans(key).threshold) || plans(key).interval == 0
    ensures AlwaysRaised(plans, key)
  {
    hide RaisedIfRead;
    forall c: Condition, at, check, r | c.key == key ensures RaisedIfRead(plans, c, at, check, r) {
      RaisedOne(plans, c, at, check, r);
    }
  }

  lemma {:induction false} RaisedOne(plans: Plans, c: Condition, at: Time, check: string, r: Reading)
    requires WholeSeconds(plans(c.key).threshold) || plans(c.key).interval == 0
    ensures RaisedIfRead(plans, c, at, check, r)
  {
    hide RaisedAfterRestart, LeftOpen, Gain, Stored, ReadAgain;
    if LeftOpen(plans, c) && ReadAgain(c, at, r) {
      LeftOpenMeans(plans, c);
      OpenOf(plans, c);
      if WholeSeconds(plans(c.key).threshold) { StoredReaches(plans, c); }
      RestartRaises(plans, c, at, check, r);
      StoredBad(c);
    }
  }

  lemma {:induction false} OpenOf(plans: Plans, c: Condition)
    requires LeftOpen(plans, c)
    ensures c.open
  {
  }

  lemma {:induction false} StoredBad(c: Condition)
    requires c.badFor >= 0
    ensures Stored(c).badFor == Truncate(c.badFor) && Stored(c).open == c.open && Stored(c).key == c.key
    ensures c.badFor == 0 ==> Truncate(c.badFor) == 0
  {
  }

  lemma {:induction false} WaitsAfterRestart(plans: Plans, key: string)
    requires !WholeSeconds(plans(key).threshold) && plans(key).interval > 0
    ensures !AlwaysRaised(plans, key)
  {
    hide RaisedAfterRestart, LeftOpen;
    var t := plans(key).threshold;
    var last := (t / SECOND + 3) * SECOND;
    CanBeLeft(plans, key, last);
    var c := Condition(key, "", last - t, t, last, "", true, last);
    RestartRaises(plans, c, last, "", BadOf(key));
    assert Truncate(last) == last && Truncate(t) < t;
    assert !RaisedIfRead(plans, c, last, "", BadOf(key));
  }

  /** Such a wait: two Bad readings half a second apart open the condition; stored,
      its half second is gone, and a reading a fifth of a second later does not
      raise it. */
  lemma {:induction false} StoredMayWait(plans: Plans, key: string)
    requires plans(key) == Plan(60 * SECOND, SECOND / 2)
    ensures var steps := [Read(3 * SECOND / 2, "", BadOf(key)), Read(2 * SECOND, "", BadOf(key))];
            var w1 := Next(plans, START, steps[0]);
            var w2 := Next(plans, w1, steps[1]);
            && Run(plans, [START, w1, w2], steps) && IsOpen(w2.conds, key) && w2.conds[key].badFor == SECOND / 2
            && Stored(w2.conds[key]).badFor == 0
            && !RaisedAfterRestart(plans, w2.conds[key], 2 * SECOND + SECOND / 5, "", BadOf(key))
  {
    var steps := [Read(3 * SECOND / 2, "", BadOf(key)), Read(2 * SECOND, "", BadOf(key))];
    var w1 := Next(plans, START, steps[0]);
    var w2 := Next(plans, w1, steps[1]);
    var c := Condition(key, "", 3 * SECOND / 2, SECOND / 2, 2 * SECOND, "", true, 2 * SECOND);
    assert GapCap(60 * SECOND) == 90 * SECOND;
    assert w2.conds[key] == c;
    HalfSecondWaits(plans, key);
    hide RaisedAfterRestart, Stored;
  }

  lemma {:induction false} HalfSecondWaits(plans: Plans, key: string)
    requires plans(key) == Plan(60 * SECOND, SECOND / 2)
    ensures var c := Condition(key, "", 3 * SECOND / 2, SECOND / 2, 2 * SECOND, "", true, 2 * SECOND);
            Stored(c).badFor == 0 && !RaisedAfterRestart(plans, c, 2 * SECOND + SECOND / 5, "", BadOf(key))
  {
    var c := Condition(key, "", 3 * SECOND / 2, SECOND / 2, 2 * SECOND, "", true, 2 * SECOND);
    assert Truncate(2 * SECOND) == 2 * SECOND && Truncate(SECOND / 2) == 0;
    RestartRaises(plans, c, 2 * SECOND + SECOND / 5, "", BadOf(key));
    hide RaisedAfterRestart;
  }
}
