/** What the alerts say: when the streak they are about began, and what was read last. */
module EngineAlerts {
  import opened Engine
  import opened EngineRuns

  /** Step i is the Bad reading that began the key's streak, tracked up to k. */
  ghost predicate BeganAt(ws: seq<World>, steps: seq<Step>, i: nat, k: nat, key: string)
    requires k < |ws| == |steps| + 1
  {
    && i < k && ReadsBad(steps[i], key) && key !in ws[i].conds
    && forall j :: i < j <= k ==> key in ws[j].conds
  }

  /** Step j is the last Bad reading of the key before k. */
  ghost predicate LastBadAt(steps: seq<Step>, j: nat, k: nat, key: string)
    requires k <= |steps|
  {
    j < k && ReadsBad(steps[j], key) && forall x :: j < x < k ==> !ReadsBad(steps[x], key)
  }

  /** A reading may know that the streak began earlier. */
  function StartOf(step: Step): Time
    requires step.Read?
  {
    if 0 < step.r.since < step.at then step.r.since else step.at
  }

  ghost predicate Begun(ws: seq<World>, steps: seq<Step>, k: nat, key: string)
    requires k < |ws| == |steps| + 1 && key in ws[k].conds
  {
    exists i: nat :: BeganAt(ws, steps, i, k, key) && ws[k].conds[key].streakStart == StartOf(steps[i])
  }

  ghost predicate Recalled(ws: seq<World>, steps: seq<Step>, k: nat, key: string)
    requires k < |ws| == |steps| + 1 && key in ws[k].conds
  {
    exists j: nat :: LastBadAt(steps, j, k, key) && ws[k].conds[key].lastText == steps[j].r.text
                && ws[k].conds[key].check == steps[j].check
  }

  lemma {:induction false} KeyStep(plans: Plans, w: World, step: Step, key: string)
    requires StreaksOK(plans, w) && step.at > 0
    requires key in Next(plans, w, step).streaks && key in Next(plans, w, step).conds
    ensures var d := Next(plans, w, step).conds[key];
            if ReadsBad(step, key) then
              && d.streakStart == (if key in w.conds then w.conds[key].streakStart else StartOf(step))
              && d.lastText == step.r.text && d.check == step.check && (key in w.conds ==> key in w.streaks)
            else
              && key in w.streaks && key in w.conds && d.streakStart == w.conds[key].streakStart
              && d.lastText == w.conds[key].lastText && d.check == w.conds[key].check
  {
    if step.Load? { MergeAdds(w.conds, step.stored); }
    hide StreakOK, Merge, LoadedOpen, Note, GapCap, Truncate;
  }

  /** Over every run a condition whose streak began here holds its beginning and its
      last Bad reading. */
  lemma {:induction false} ConditionsRecall(plans: Plans, ws: seq<World>, steps: seq<Step>, k: nat, key: string)
    requires Run(plans, ws, steps) && k < |ws| && key in ws[k].streaks
    ensures key in ws[k].conds && Begun(ws, steps, k, key) && Recalled(ws, steps, k, key)
  {
    hide Next, StreakOK;
    StreaksReachable(plans, ws, steps, k);
    if k > 0 {
      StreaksReachable(plans, ws, steps, k - 1);
      var (w, step) := (ws[k - 1], steps[k - 1]);
      KeyStep(plans, w, step, key);
      if key in w.streaks { ConditionsRecall(plans, ws, steps, k - 1, key); }
      BegunStep(ws, steps, k - 1, key);
      RecalledStep(ws, steps, k - 1, key);
    }
  }

  lemma {:induction false} BegunStep(ws: seq<World>, steps: seq<Step>, k: nat, key: string)
    requires k < |steps| && |ws| == |steps| + 1 && key in ws[k + 1].conds
    requires if key in ws[k].conds then
               Begun(ws, steps, k, key) && ws[k + 1].conds[key].streakStart == ws[k].conds[key].streakStart
             else ReadsBad(steps[k], key) && ws[k + 1].conds[key].streakStart == StartOf(steps[k])
    ensures Begun(ws, steps, k + 1, key)
  {
    if key in ws[k].conds {
      var i: nat :| BeganAt(ws, steps, i, k, key) && ws[k].conds[key].streakStart == StartOf(steps[i]);
      assert BeganAt(ws, steps, i, k + 1, key);
    } else {
      assert BeganAt(ws, steps, k, k + 1, key);
    }
  }

  lemma {:induction false} RecalledStep(ws: seq<World>, steps: seq<Step>, k: nat, key: string)
    requires k < |steps| && |ws| == |steps| + 1 && key in ws[k + 1].conds
    requires if ReadsBad(steps[k], key) then
               ws[k + 1].conds[key].lastText == steps[k].r.text && ws[k + 1].conds[key].check == steps[k].check
             else
               && key in ws[k].conds && Recalled(ws, steps, k, key)
               && ws[k + 1].conds[key].lastText == ws[k].conds[key].lastText
               && ws[k + 1].conds[key].check == ws[k].conds[key].check
    ensures Recalled(ws, steps, k + 1, key)
  {
    if ReadsBad(steps[k], key) {
      assert LastBadAt(steps, k, k + 1, key);
    } else {
      var j: nat :| LastBadAt(steps, j, k, key) && ws[k].conds[key].lastText == steps[j].r.text
                    && ws[k].conds[key].check == steps[j].check;
      assert LastBadAt(steps, j, k + 1, key);
    }
  }

  function AlertsOf(plans: Plans, w: World, step: Step): seq<Alert>
    requires step.Read?
  {
    ApplyOne(w.conds, step.at, step.check, plans(step.r.key).interval, plans(step.r.key).threshold, step.r).1
  }

  /** What one reading sends out. */
  ghost predicate Says(w: World, v: World, step: Step, out: seq<Alert>)
    requires step.Read?
  {
    var (r, key) := (step.r, step.r.key);
    if r.event then out == [Alert(Event, step.check, key, r.text, 0, r.mode)]
    else
      match r.verdict
      case Unknown => out == []
      case Good =>
        out == if key in w.conds && w.conds[key].open then
                 [Alert(Resolved, step.check, key, if r.text == "" then w.conds[key].lastText else r.text,
                        w.conds[key].streakStart, r.mode)]
               else []
      case Bad =>
        && key in v.conds
        && out == if v.conds[key].open && !(key in w.conds && w.conds[key].open) then
                    [Alert(Problem, step.check, key, r.text, v.conds[key].streakStart, r.mode)]
                  else []
  }

  lemma {:induction false} ReadingSays(plans: Plans, w: World, step: Step)
    requires step.Read?
    ensures Says(w, Next(plans, w, step), step, AlertsOf(plans, w, step))
  {
    hide GapCap, Note, Counted;
  }

  /** Over every run: an event is passed on; a Good reading of an open condition sends
      one RESOLVED, with the last Bad reading's text when it has none of its own; a
      Bad reading that opens its condition sends one PROBLEM; and both say when the
      streak began, by its first Bad reading. Nothing else is sent. */
  lemma {:induction false} AlertsSay(plans: Plans, ws: seq<World>, steps: seq<Step>, k: nat)
    requires Run(plans, ws, steps) && k < |steps| && steps[k].Read?
    ensures Says(ws[k], ws[k + 1], steps[k], AlertsOf(plans, ws[k], steps[k]))
    ensures var key := steps[k].r.key;
            && (key in ws[k].streaks ==>
                  key in ws[k].conds && Begun(ws, steps, k, key) && Recalled(ws, steps, k, key))
            && (key in ws[k + 1].streaks ==> key in ws[k + 1].conds && Begun(ws, steps, k + 1, key))
  {
    hide Next, Says, Begun, Recalled;
    ReadingSays(plans, ws[k], steps[k]);
    var key := steps[k].r.key;
    if key in ws[k].streaks { ConditionsRecall(plans, ws, steps, k, key); }
    if key in ws[k + 1].streaks { ConditionsRecall(plans, ws, steps, k + 1, key); }
  }
}
