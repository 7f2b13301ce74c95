/** Every run of the memory guard: exactly when an episode ends, and what a report that
    memory did not come back says. */
module EpisodeEnds {
  import opened Basics
  import opened Episode
  import opened EpisodeRuns

  // ---------------------------------------------------------------- clear readings

  /** Among events i to k - 1, i is a clear reading and none is a danger one. */
  ghost predicate UnbrokenClear(cfg: Config, es: seq<Event>, i: int, k: nat)
    requires k <= |es|
  {
    0 <= i < k && ClearAt(cfg, es[i]) && forall x :: i <= x < k ==> !DangerAt(cfg, es[x])
  }

  /** clearSince is when the longest unbroken run of clear readings up to now began,
      zero when the last reading was a danger one. */
  ghost predicate ClearKept(cfg: Config, es: seq<Event>, k: nat, since: Time)
    requires k <= |es|
  {
    && (since == 0 ==> forall i :: !UnbrokenClear(cfg, es, i, k))
    && (since != 0 ==> exists i :: 0 <= i < k && UnbrokenClear(cfg, es, i, k) && TimeOf(es[i]) == since)
    && (forall i :: UnbrokenClear(cfg, es, i, k) ==> TimeOf(es[i]) >= since)
  }

  lemma {:induction false} ClearGrows(cfg: Config, es: seq<Event>, i: int, k: nat)
    requires k < |es|
    ensures UnbrokenClear(cfg, es, i, k + 1) <==>
            !DangerAt(cfg, es[k]) && (UnbrokenClear(cfg, es, i, k) || (i == k && ClearAt(cfg, es[k])))
  {
  }

  lemma {:induction false} ClearKeptStep(cfg: Config, es: seq<Event>, k: nat, since: Time)
    requires k < |es| && InOrder(es) && ClearKept(cfg, es, k, since)
    ensures var e := es[k];
            ClearKept(cfg, es, k + 1, if DangerAt(cfg, e) then 0
                                      else if ClearAt(cfg, e) && since == 0 then TimeOf(e) else since)
  {
    hide DangerAt, ClearAt, UnbrokenClear;
    var n := k + 1;
    forall i ensures UnbrokenClear(cfg, es, i, n) <==>
      !DangerAt(cfg, es[k]) && (UnbrokenClear(cfg, es, i, k) || (i == k && ClearAt(cfg, es[k])))
    {
      ClearGrows(cfg, es, i, k);
    }
    ClearOrDanger(cfg, es[k]);
    if !DangerAt(cfg, es[k]) {
      if since != 0 {
        var i :| 0 <= i < k && UnbrokenClear(cfg, es, i, k) && TimeOf(es[i]) == since;
        assert UnbrokenClear(cfg, es, i, n);
        ClearBefore(cfg, es, i, k);
      } else if ClearAt(cfg, es[k]) {
        assert UnbrokenClear(cfg, es, k, n);
      }
    }
  }

  lemma {:induction false} ClearOrDanger(cfg: Config, e: Event)
    ensures !(ClearAt(cfg, e) && DangerAt(cfg, e))
  {
  }

  lemma {:induction false} ClearBefore(cfg: Config, es: seq<Event>, i: int, k: nat)
    requires k < |es| && InOrder(es) && UnbrokenClear(cfg, es, i, k)
    ensures 0 <= i < k && TimeOf(es[i]) <= TimeOf(es[k])
  {
  }

  lemma {:induction false} ClearReachable(cfg: Config, es: seq<Event>, k: nat)
    requires k <= |es| && InOrder(es)
    ensures ClearKept(cfg, es, k, After(cfg, es[..k]).clearSince)
  {
    hide ClearKept, Step, InOrder;
    if k == 0 {
      NoneClear(cfg, es);
    } else {
      ClearReachable(cfg, es, k - 1);
      AfterStep(cfg, es, k - 1);
      SinceStep(cfg, After(cfg, es[..k - 1]), es[k - 1]);
      ClearKeptStep(cfg, es, k - 1, After(cfg, es[..k - 1]).clearSince);
    }
  }

  lemma {:induction false} NoneClear(cfg: Config, es: seq<Event>)
    ensures ClearKept(cfg, es, 0, 0)
  {
  }

  /** The readings up to event j have been clear for so long. */
  ghost predicate ClearFor(cfg: Config, es: seq<Event>, j: nat, span: int)
    requires j < |es|
  {
    exists i :: UnbrokenClear(cfg, es, i, j + 1) && TimeOf(es[j]) - TimeOf(es[i]) >= span
  }

  lemma {:induction false} ClearForMeans(cfg: Config, es: seq<Event>, j: nat, span: int)
    requires j < |es| && InOrder(es) && ClearAt(cfg, es[j])
    ensures ClearFor(cfg, es, j, span) <==> TimeOf(es[j]) - After(cfg, es[..j + 1]).clearSince >= span
  {
    hide UnbrokenClear, InOrder;
    ClearReachable(cfg, es, j + 1);
    SelfClear(cfg, es, j);
    assert UnbrokenClear(cfg, es, j, j + 1);
  }

  lemma {:induction false} SelfClear(cfg: Config, es: seq<Event>, j: nat)
    requires j < |es| && ClearAt(cfg, es[j])
    ensures UnbrokenClear(cfg, es, j, j + 1)
  {
    ClearOrDanger(cfg, es[j]);
  }

  /** How a reading moves an episode that was answered, or not yet decided. */
  lemma {:induction false} ReadingMoves(cfg: Config, g: Guard, h: Host, c: Option<Culprit>)
    ensures var (t, danger) := (Observe(cfg, g, h, c).0, IsDanger(cfg, h));
            match g.ep.phase
            case Acted =>
              if g.ep.doneAt == 0 || h.at - g.ep.doneAt < cfg.recoveryWindow then t.ep == g.ep
              else if danger then t.ep == g.ep.(phase := NotRecovered)
              else t.ep == if h.at - t.clearSince >= cfg.dangerFor then IDLE else g.ep
            case Reported =>
              t.ep == if !danger && h.at - t.clearSince >= cfg.recoveryWindow then IDLE else g.ep
            case NotRecovered =>
              t.ep == if !danger && h.at - t.clearSince >= cfg.recoveryWindow then IDLE else g.ep
            case _ => if danger then !t.ep.phase.Idle? else t.ep == IDLE
  {
    hide ActionFor, AddRecord, IsDanger;
  }

  /** Over every run, exactly when the reading at event j ends an episode: at once if
      nothing was decided; once it was clear for RecoveryWindow if the decision was
      only reported or memory did not come back; and for an action, RecoveryWindow
      after it succeeded, once it was clear for DangerFor. A danger reading then
      means memory did not come back. No other reading changes an answered
      episode. */
  lemma {:induction false} EpisodeEndsExactly(cfg: Config, es: seq<Event>, j: nat)
    requires j < |es| && InOrder(es) && es[j].Reading?
    ensures var (was, now, clear) := (After(cfg, es[..j]).ep, After(cfg, es[..j + 1]).ep, ClearAt(cfg, es[j]));
            match was.phase
            case Acted =>
              if was.doneAt == 0 || TimeOf(es[j]) - was.doneAt < cfg.recoveryWindow then now == was
              else if !clear then now == was.(phase := NotRecovered)
              else now == if ClearFor(cfg, es, j, cfg.dangerFor) then IDLE else was
            case Reported => now == if clear && ClearFor(cfg, es, j, cfg.recoveryWindow) then IDLE else was
            case NotRecovered => now == if clear && ClearFor(cfg, es, j, cfg.recoveryWindow) then IDLE else was
            case _ => if clear then now == IDLE else !now.phase.Idle?
  {
    hide ClearFor, Observe, InOrder, After, IsDanger;
    AfterStep(cfg, es, j);
    var g := After(cfg, es[..j]);
    ReadingMoves(cfg, g, es[j].host, es[j].culprit);
    JudgedSo(cfg, es[j]);
    if ClearAt(cfg, es[j]) {
      ClearForMeans(cfg, es, j, cfg.dangerFor);
      ClearForMeans(cfg, es, j, cfg.recoveryWindow);
    }
  }

  lemma {:induction false} JudgedSo(cfg: Config, e: Event)
    requires e.Reading?
    ensures ClearAt(cfg, e) <==> !IsDanger(cfg, e.host)
  {
  }

  // ---------------------------------------------------------------- what was done

  /** The last event between n and k by which the action taken at n succeeded, -1 for
      none. */
  ghost function LastDone(es: seq<Event>, n: nat, k: nat): (m: int)
    requires n < |es| && k <= |es|
    ensures m == -1 || (n < m < k && es[m].Done? && es[m].ok && es[m].record.at == TimeOf(es[n]))
    ensures forall x :: m < x < k && n < x && es[x].Done? && es[x].ok ==> es[x].record.at != TimeOf(es[n])
    decreases k
  {
    if k <= n + 1 then -1
    else if es[k - 1].Done? && es[k - 1].ok && es[k - 1].record.at == TimeOf(es[n]) then k - 1
    else LastDone(es, n, k - 1)
  }

  /** An acted episode holds the culprit decided upon, and what was done when, or else
      what is being done. */
  ghost predicate ActedOK(cfg: Config, es: seq<Event>, k: nat)
    requires k <= |es|
  {
    var (ep, n) := (After(cfg, es[..k]).ep, LastOpen(cfg, es, k));
    ep.phase.Acted? && n >= 0 && Emitted(cfg, es, n).Some? ==>
      var d := Emitted(cfg, es, n).value;
      var m := LastDone(es, n, k);
      && ep.culprit == d.culprit
      && if m < 0 then ep.doneAt == 0 && Some(ep.action) == d.action
         else ep.doneAt == TimeOf(es[m]) && ep.action == es[m].record.action
  }

  lemma {:induction false} ActsSo(cfg: Config, g: Guard, h: Host, c: Option<Culprit>)
    requires !g.ep.phase.Acted? && Observe(cfg, g, h, c).0.ep.phase.Acted?
    ensures var (t, d) := Observe(cfg, g, h, c);
            && d.Some? && d.value.Opens() && t.ep.culprit == d.value.culprit && Some(t.ep.action) == d.value.action
            && (g.ep.phase.Idle? || (g.ep.phase.Danger? && t.ep.doneAt == g.ep.doneAt))
            && (g.ep.phase.Idle? ==> t.ep.doneAt == 0)
  {
    hide ActionFor, AddRecord, IsDanger;
  }

  lemma {:induction false} ReadingActs(cfg: Config, es: seq<Event>, k: nat)
    requires k < |es| && InOrder(es) && EpisodeRuns.Inv(cfg, es, k) && ActedOK(cfg, es, k) && es[k].Reading?
    ensures ActedOK(cfg, es, k + 1)
  {
    hide After, Observe, LastOpen, LastReport, OpenedAt, InOrder, DangerKept, Succeeded, Emitted, LastDone, Last;
    AfterStep(cfg, es, k);
    HistoryStep(cfg, es, k);
    var (g, h, c) := (After(cfg, es[..k]), es[k].host, es[k].culprit);
    Moves(cfg, g, h, c);
    assert Opened(cfg, es, k) <==> Emitted(cfg, es, k).Some? && Emitted(cfg, es, k).value.Opens();
    if Observe(cfg, g, h, c).0.ep.phase.Acted? {
      if g.ep.phase.Acted? {
        DoneLater(es, LastOpen(cfg, es, k), k);
      } else {
        ActsSo(cfg, g, h, c);
        NotDoneYet(es, k);
      }
    }
  }

  lemma {:induction false} DoneLater(es: seq<Event>, n: int, k: nat)
    requires 0 <= n < k < |es|
    ensures LastDone(es, n, k + 1) ==
            if es[k].Done? && es[k].ok && es[k].record.at == TimeOf(es[n]) then k else LastDone(es, n, k)
  {
  }

  lemma {:induction false} NotDoneYet(es: seq<Event>, n: nat)
    requires n < |es|
    ensures LastDone(es, n, n + 1) == -1
  {
  }

  lemma {:induction false} OtherActs(cfg: Config, es: seq<Event>, k: nat)
    requires k < |es| && InOrder(es) && EpisodeRuns.Inv(cfg, es, k) && ActedOK(cfg, es, k) && !es[k].Reading?
    ensures ActedOK(cfg, es, k + 1)
  {
    AfterStep(cfg, es, k);
    HistoryStep(cfg, es, k);
    var n := LastOpen(cfg, es, k);
    assert n >= 0 ==> OpenedAt(cfg, es, k) == TimeOf(es[n]);
    hide After, LastOpen, LastReport, OpenedAt, InOrder, DangerKept, Succeeded, Emitted, LastDone, Last, AddRecord;
    if n >= 0 { DoneLater(es, n, k); }
  }

  lemma {:induction false} ActedReachable(cfg: Config, es: seq<Event>, k: nat)
    requires k <= |es| && InOrder(es)
    ensures ActedOK(cfg, es, k)
  {
    hide ActedOK, EpisodeRuns.Inv, InOrder;
    if k == 0 {
      NothingActed(cfg, es);
    } else {
      ActedReachable(cfg, es, k - 1);
      Reachable(cfg, es, k - 1);
      if es[k - 1].Reading? { ReadingActs(cfg, es, k - 1); } else { OtherActs(cfg, es, k - 1); }
    }
  }

  lemma {:induction false} NothingActed(cfg: Config, es: seq<Event>)
    ensures ActedOK(cfg, es, 0)
  {
  }

  /** What the end of an action does: a failed one ends its own episode as reported,
      and one that succeeded is kept in the records, beside those still within the
      window when it began. */
  lemma {:induction false} DoneSays(cfg: Config, es: seq<Event>, k: nat)
    requires k < |es| && es[k].Done?
    ensures var (g, t, r) := (After(cfg, es[..k]), After(cfg, es[..k + 1]), es[k].record);
            var own := g.ep.phase.Acted? && g.ep.actedAt == r.at;
            && Emitted(cfg, es, k).None? && t.dangerSince == g.dangerSince && t.clearSince == g.clearSince
            && if !es[k].ok then t.records == g.records && t.ep == if own then g.ep.(phase := Reported) else g.ep
               else
                 && t.ep == (if own then g.ep.(action := r.action, doneAt := es[k].at) else g.ep)
                 && t.records != [] && t.records[|t.records| - 1] == r
                 && forall x :: x in t.records[..|t.records| - 1] <==>
                                x in g.records && r.at - x.at <= cfg.repeatWindow
  {
    AfterStep(cfg, es, k);
    hide After;
  }

  /** Over every run a not_recovered outcome at event j is about the culprit of one
      decision to act, n, and what was done to it, by the last event m that said it
      was done: at least RecoveryWindow ago, on a danger reading, and nothing was
      reported since. */
  lemma {:induction false} NotRecoveredSays(cfg: Config, es: seq<Event>, j: nat) returns (n: nat, m: nat)
    requires j < |es| && InOrder(es) && Emitted(cfg, es, j).Some? && !Opened(cfg, es, j)
    ensures n < m < j && Opened(cfg, es, n) && Emitted(cfg, es, n).value.act
    ensures m == LastDone(es, n, j) && TimeOf(es[j]) - TimeOf(es[m]) >= cfg.recoveryWindow && DangerAt(cfg, es[j])
    ensures Emitted(cfg, es, j).value.culprit == Emitted(cfg, es, n).value.culprit
    ensures Emitted(cfg, es, j).value.action == Some(es[m].record.action)
    ensures Emitted(cfg, es, j).value.kind.StillDanger? && !Emitted(cfg, es, j).value.act
    ensures forall x :: n < x < j ==> Emitted(cfg, es, x).None?
  {
    var m0: nat;
    n, m0 := NotRecoveredOnce(cfg, es, j);
    ActedReachable(cfg, es, j);
    Reachable(cfg, es, j);
    StillDangerSays(cfg, es, j);
    hide InOrder, LastReport, DangerKept;
    OpenIsLast(cfg, es, n, j);
    m := LastDone(es, n, j);
  }

  lemma {:induction false} OpenIsLast(cfg: Config, es: seq<Event>, n: nat, j: nat)
    requires n < j <= |es| && Opened(cfg, es, n) && forall x :: n < x < j ==> Emitted(cfg, es, x).None?
    ensures LastOpen(cfg, es, j) == n
  {
    LastOpenIs(cfg, es, j, n);
    hide Emitted;
  }

  lemma {:induction false} StillDangerSays(cfg: Config, es: seq<Event>, j: nat)
    requires j < |es| && Emitted(cfg, es, j).Some? && !Opened(cfg, es, j)
    ensures var (ep, d) := (After(cfg, es[..j]).ep, Emitted(cfg, es, j).value);
            && ep.phase.Acted? && ep.doneAt != 0 && d.kind.StillDanger? && !d.act
            && d.culprit == ep.culprit && d.action == Some(ep.action)
            && DangerAt(cfg, es[j]) && TimeOf(es[j]) - ep.doneAt >= cfg.recoveryWindow
  {
    hide ActionFor, AddRecord, After;
  }
}
