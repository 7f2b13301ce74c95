/** Every run of the memory guard: when it may decide, how far apart its decisions
    are, and when it may report that memory did not come back. */
module EpisodeRuns {
  import opened Basics
  import opened Episode

  // ---------------------------------------------------------------- history

  /** The last event before k whose reading was decided upon, -1 for none. */
  ghost function LastOpen(cfg: Config, es: seq<Event>, k: nat): (n: int)
    requires k <= |es|
    ensures -1 <= n < k
  {
    if k == 0 then -1
    else if Opened(cfg, es, k - 1) then k - 1
    else LastOpen(cfg, es, k - 1)
  }

  /** The last event before k that made the guard report anything. */
  ghost function LastReport(cfg: Config, es: seq<Event>, k: nat): (n: int)
    requires k <= |es|
    ensures -1 <= n < k
  {
    if k == 0 then -1
    else if Emitted(cfg, es, k - 1).Some? then k - 1
    else LastReport(cfg, es, k - 1)
  }

  predicate Opened(cfg: Config, es: seq<Event>, j: nat)
    requires j < |es|
  {
    Emitted(cfg, es, j).Some? && Emitted(cfg, es, j).value.Opens()
  }

  lemma {:induction false} LastOpenIs(cfg: Config, es: seq<Event>, k: nat, j: nat)
    requires j < k <= |es|
    ensures Opened(cfg, es, j) ==> j <= LastOpen(cfg, es, k)
    ensures LastOpen(cfg, es, k) >= 0 ==> Opened(cfg, es, LastOpen(cfg, es, k))
    ensures Emitted(cfg, es, j).Some? ==> j <= LastReport(cfg, es, k)
  {
    hide Emitted;
    if j < k - 1 { LastOpenIs(cfg, es, k - 1, j); }
    else if j > 0 { LastOpenIs(cfg, es, k - 1, j - 1); }
  }

  /** When the last decision was made; 0 for none. */
  ghost function OpenedAt(cfg: Config, es: seq<Event>, k: nat): Time
    requires k <= |es|
  {
    var n := LastOpen(cfg, es, k);
    if n < 0 then 0 else TimeOf(es[n])
  }

  ghost function Last(es: seq<Event>, k: nat): Time
    requires k <= |es|
  {
    if k == 0 then 0 else TimeOf(es[k - 1])
  }

  // ---------------------------------------------------------------- invariant

  /** Event i begins the longest unbroken run of danger readings ending at k. */
  ghost predicate Begins(cfg: Config, es: seq<Event>, i: nat, k: nat)
    requires k <= |es|
  {
    UnbrokenDanger(cfg, es, i, k) && forall j: nat :: j < i ==> !UnbrokenDanger(cfg, es, j, k)
  }

  /** dangerSince is when the longest unbroken run of danger readings up to now
      began, zero when the last reading was clear. */
  ghost predicate DangerKept(cfg: Config, es: seq<Event>, k: nat, since: Time)
    requires k <= |es|
  {
    if since == 0 then forall i: nat :: !UnbrokenDanger(cfg, es, i, k)
    else exists i: nat :: i < k && Begins(cfg, es, i, k) && TimeOf(es[i]) == since
  }

  /** The action of the last decision succeeded, by an event after it. */
  ghost predicate Succeeded(cfg: Config, es: seq<Event>, k: nat, n: int)
    requires k <= |es|
  {
    0 <= n < k && exists m :: n < m < k && es[m].Done? && es[m].ok && es[m].record.at == TimeOf(es[n])
  }

  ghost predicate PhaseOK(cfg: Config, es: seq<Event>, k: nat, g: Guard)
    requires k <= |es|
  {
    var n, at := LastOpen(cfg, es, k), OpenedAt(cfg, es, k);
    match g.ep.phase
    case Idle => g.dangerSince == 0 && (n >= 0 ==> Last(es, k) >= at + cfg.recoveryWindow)
                 && (n < 0 ==> LastReport(cfg, es, k) < 0)
    case Danger => g.ep.doneAt == 0 && g.dangerSince != 0 && (n >= 0 ==> g.dangerSince >= at + cfg.recoveryWindow)
                   && (n < 0 ==> LastReport(cfg, es, k) < 0)
    case Acted =>
      && n >= 0 && LastReport(cfg, es, k) == n && g.ep.actedAt == at
      && Emitted(cfg, es, n).Some? && Emitted(cfg, es, n).value.act
      && (g.ep.doneAt != 0 ==> g.ep.doneAt >= at && Succeeded(cfg, es, k, n))
    case Reported => n >= 0
    case NotRecovered => n >= 0
  }

  ghost predicate Inv(cfg: Config, es: seq<Event>, k: nat)
    requires k <= |es|
  {
    var g := After(cfg, es[..k]);
    && DangerKept(cfg, es, k, g.dangerSince)
    && (g.clearSince != 0 ==> g.clearSince >= OpenedAt(cfg, es, k))
    && PhaseOK(cfg, es, k, g)
  }

  // ---------------------------------------------------------------- steps

  lemma {:induction false} AfterStep(cfg: Config, es: seq<Event>, k: nat)
    requires k < |es|
    ensures After(cfg, es[..k + 1]) == Step(cfg, After(cfg, es[..k]), es[k]).0
    ensures Emitted(cfg, es, k) == Step(cfg, After(cfg, es[..k]), es[k]).1
  {
    assert es[..k + 1][..k] == es[..k];
  }

  lemma {:induction false} SinceStep(cfg: Config, g: Guard, e: Event)
    ensures Step(cfg, g, e).0.dangerSince ==
            if ClearAt(cfg, e) then 0
            else if DangerAt(cfg, e) && g.dangerSince == 0 then TimeOf(e) else g.dangerSince
    ensures Step(cfg, g, e).0.clearSince ==
            if DangerAt(cfg, e) then 0
            else if ClearAt(cfg, e) && g.clearSince == 0 then TimeOf(e) else g.clearSince
  {
  }

  lemma {:induction false} UnbrokenStep(cfg: Config, es: seq<Event>, i: nat, k: nat)
    requires k < |es|
    ensures UnbrokenDanger(cfg, es, i, k + 1) <==>
            !ClearAt(cfg, es[k]) && (UnbrokenDanger(cfg, es, i, k) || (i == k && DangerAt(cfg, es[k])))
  {
  }

  lemma {:induction false} DangerStep(cfg: Config, es: seq<Event>, k: nat, since: Time)
    requires k < |es| && InOrder(es) && DangerKept(cfg, es, k, since)
    ensures var e := es[k];
            DangerKept(cfg, es, k + 1, if ClearAt(cfg, e) then 0
                                       else if DangerAt(cfg, e) && since == 0 then TimeOf(e) else since)
  {
    var n := k + 1;
    if ClearAt(cfg, es[k]) || (since == 0 && !DangerAt(cfg, es[k])) {
      forall j: nat ensures !UnbrokenDanger(cfg, es, j, n) { UnbrokenStep(cfg, es, j, k); }
    } else if since == 0 {
      forall j: nat | j < k ensures !UnbrokenDanger(cfg, es, j, n) { UnbrokenStep(cfg, es, j, k); }
      UnbrokenStep(cfg, es, k, k);
      BeginsAt(cfg, es, k, n);
    } else {
      var i: nat :| i < k && Begins(cfg, es, i, k) && TimeOf(es[i]) == since;
      forall j: nat | j < i ensures !UnbrokenDanger(cfg, es, j, n) { UnbrokenStep(cfg, es, j, k); }
      UnbrokenStep(cfg, es, i, k);
      BeginsAt(cfg, es, i, n);
    }
  }

  lemma {:induction false} BeginsAt(cfg: Config, es: seq<Event>, i: nat, k: nat)
    requires k <= |es| && UnbrokenDanger(cfg, es, i, k) && forall j: nat :: j < i ==> !UnbrokenDanger(cfg, es, j, k)
    ensures Begins(cfg, es, i, k)
  {
  }

  lemma {:induction false} SucceededLater(cfg: Config, es: seq<Event>, k: nat, n: int)
    requires k < |es| && Succeeded(cfg, es, k, n)
    ensures Succeeded(cfg, es, k + 1, n)
  {
    var m :| n < m < k && es[m].Done? && es[m].ok && es[m].record.at == TimeOf(es[n]);
  }

  /** How the history of reports grows with one event. */
  lemma {:induction false} HistoryStep(cfg: Config, es: seq<Event>, k: nat)
    requires k < |es| && InOrder(es)
    ensures LastReport(cfg, es, k + 1) == if Emitted(cfg, es, k).Some? then k else LastReport(cfg, es, k)
    ensures LastOpen(cfg, es, k + 1) == if Opened(cfg, es, k) then k else LastOpen(cfg, es, k)
    ensures OpenedAt(cfg, es, k + 1) == if Opened(cfg, es, k) then TimeOf(es[k]) else OpenedAt(cfg, es, k)
    ensures Last(es, k + 1) == TimeOf(es[k]) > 0
    ensures Last(es, k) <= TimeOf(es[k]) && OpenedAt(cfg, es, k) <= TimeOf(es[k])
  {
  }

  /** How a reading moves the episode, the culprit and the records aside. */
  lemma {:induction false} Moves(cfg: Config, g: Guard, h: Host, c: Option<Culprit>)
    ensures var (t, d) := Observe(cfg, g, h, c);
            match g.ep.phase
            case Acted =>
              if t.ep.phase.Acted? then t.ep == g.ep && d.None?
              else g.ep.doneAt != 0 && h.at - g.ep.doneAt >= cfg.recoveryWindow
                   && if t.ep.phase.Idle? then d.None? && t.dangerSince == 0
                      else t.ep.phase.NotRecovered? && d.Some? && !d.value.Opens()
            case Reported =>
              && d.None?
              && (t.ep == g.ep || (t.ep == IDLE && t.dangerSince == 0 && h.at - t.clearSince >= cfg.recoveryWindow))
            case NotRecovered =>
              && d.None?
              && (t.ep == g.ep || (t.ep == IDLE && t.dangerSince == 0 && h.at - t.clearSince >= cfg.recoveryWindow))
            case _ =>
              if d.None? then
                if IsDanger(cfg, h) then
                  t.ep.phase.Danger? && t.ep.doneAt == (if g.ep.phase.Idle? then 0 else g.ep.doneAt)
                else t.ep == IDLE
              else
                && d.value.Opens()
                && (t.ep.phase.Reported? || (t.ep.phase.Acted? && d.value.act && t.ep.actedAt == h.at
                                             && t.ep.doneAt == (if g.ep.phase.Idle? then 0 else g.ep.doneAt)))
  {
    hide ActionFor, AddRecord;
  }

  lemma {:induction false} ReadingStep(cfg: Config, es: seq<Event>, k: nat)
    requires k < |es| && InOrder(es) && Inv(cfg, es, k) && es[k].Reading?
    ensures PhaseOK(cfg, es, k + 1, After(cfg, es[..k + 1]))
  {
    AfterStep(cfg, es, k);
    HistoryStep(cfg, es, k);
    SinceStep(cfg, After(cfg, es[..k]), es[k]);
    Moves(cfg, After(cfg, es[..k]), es[k].host, es[k].culprit);
    hide InOrder, DangerKept, Succeeded, LastOpen, LastReport, OpenedAt, Last, Emitted, After, IsDanger, Observe;
    assert Opened(cfg, es, k) <==> Emitted(cfg, es, k).Some? && Emitted(cfg, es, k).value.Opens();
    if Succeeded(cfg, es, k, LastOpen(cfg, es, k)) { SucceededLater(cfg, es, k, LastOpen(cfg, es, k)); }
  }

  lemma {:induction false} DoneStep(cfg: Config, es: seq<Event>, k: nat)
    requires k < |es| && InOrder(es) && Inv(cfg, es, k) && !es[k].Reading?
    ensures PhaseOK(cfg, es, k + 1, After(cfg, es[..k + 1]))
  {
    AfterStep(cfg, es, k);
    HistoryStep(cfg, es, k);
    var n := LastOpen(cfg, es, k);
    if 0 <= n && es[k].Done? && es[k].ok && es[k].record.at == TimeOf(es[n]) { SucceedsNow(cfg, es, k, n); }
    if Succeeded(cfg, es, k, n) { SucceededLater(cfg, es, k, n); }
    assert n >= 0 ==> OpenedAt(cfg, es, k) == TimeOf(es[n]);
    hide InOrder, DangerKept, Succeeded, ActionFor, AddRecord, LastOpen, LastReport, OpenedAt, Last, Emitted, After;
  }

  lemma {:induction false} ClearStep(cfg: Config, es: seq<Event>, k: nat)
    requires k < |es| && InOrder(es) && Inv(cfg, es, k)
    ensures var g := After(cfg, es[..k + 1]); g.clearSince != 0 ==> g.clearSince >= OpenedAt(cfg, es, k + 1)
  {
    AfterStep(cfg, es, k);
    HistoryStep(cfg, es, k);
    SinceStep(cfg, After(cfg, es[..k]), es[k]);
    if Opened(cfg, es, k) { OpenedOnDanger(cfg, es, k); }
    hide Step, After, LastOpen, OpenedAt, PhaseOK, DangerKept;
  }

  lemma {:induction false} InvStep(cfg: Config, es: seq<Event>, k: nat)
    requires k < |es| && InOrder(es) && Inv(cfg, es, k)
    ensures Inv(cfg, es, k + 1)
  {
    hide PhaseOK, DangerKept, Step, OpenedAt;
    AfterStep(cfg, es, k);
    var g := After(cfg, es[..k]);
    SinceStep(cfg, g, es[k]);
    DangerStep(cfg, es, k, g.dangerSince);
    ClearStep(cfg, es, k);
    if es[k].Reading? { ReadingStep(cfg, es, k); } else { DoneStep(cfg, es, k); }
  }

  lemma {:induction false} OpenedOnDanger(cfg: Config, es: seq<Event>, k: nat)
    requires k < |es| && Opened(cfg, es, k)
    ensures DangerAt(cfg, es[k]) && After(cfg, es[..k]).ep.phase in {Idle, Danger}
    ensures TimeOf(es[k]) - After(cfg, es[..k + 1]).dangerSince >= cfg.dangerFor
  {
    AfterStep(cfg, es, k);
    hide ActionFor, AddRecord, After;
  }

  lemma {:induction false} SucceedsNow(cfg: Config, es: seq<Event>, k: nat, n: int)
    requires 0 <= n < k < |es| && es[k].Done? && es[k].ok && es[k].record.at == TimeOf(es[n])
    ensures Succeeded(cfg, es, k + 1, n)
  {
  }

  lemma {:induction false} Reachable(cfg: Config, es: seq<Event>, k: nat)
    requires k <= |es| && InOrder(es)
    ensures Inv(cfg, es, k)
  {
    if k > 0 {
      Reachable(cfg, es, k - 1);
      InvStep(cfg, es, k - 1);
    }
  }

  // ---------------------------------------------------------------- main results

  /** A decision at event j is on a danger reading that ends a run of danger
      readings, unbroken by any clear one, spanning DangerFor. */
  lemma {:induction false} DecisionFollowsDanger(cfg: Config, es: seq<Event>, j: nat)
    requires j < |es| && InOrder(es) && Opened(cfg, es, j)
    ensures exists i: nat :: UnbrokenDanger(cfg, es, i, j + 1) && TimeOf(es[j]) - TimeOf(es[i]) >= cfg.dangerFor
  {
    Reachable(cfg, es, j + 1);
    OpenedOnDanger(cfg, es, j);
    hide After, PhaseOK, Opened;
    var since := After(cfg, es[..j + 1]).dangerSince;
    UnbrokenStep(cfg, es, j, j);
    assert UnbrokenDanger(cfg, es, j, j + 1);
    var i: nat :| i < j + 1 && Begins(cfg, es, i, j + 1) && TimeOf(es[i]) == since;
  }

  /** What a decision says: nobody to blame, or a protected culprit left alone, or
      the culprit stopped when tgshd acted on it within the window and restarted
      otherwise; in act mode it is done, with a record of it, and else only said. */
  ghost predicate Decided(cfg: Config, records: seq<Record>, h: Host, c: Option<Culprit>, d: Decision) {
    && d.culprit == c
    && if c.None? then d.kind.NoCulprit? && !d.act && d.action.None? && d.record.None?
       else if c.value.service.protected then d.kind.Protected? && !d.act && d.action.None? && d.record.None?
       else
         var s := c.value.service;
         var again := cfg.repeatWindow > 0 && exists at :: ActedOn(records, s.id, cfg.repeatWindow, h.at, at);
         && d.act == cfg.act
         && d.action == Some(if again then Stop else Restart)
         && d.kind == (if again then if cfg.act then Stopped else WouldStop
                       else if cfg.act then Restarted else WouldRestart)
         && (if again then ActedOn(records, s.id, cfg.repeatWindow, h.at, d.lastAction) else d.lastAction == 0)
         && d.record == if cfg.act then Some(Record(s.id, s.name, d.action.value, h.at, c.value.size, true)) else None
  }

  /** Only what is said but not done is noted at once, beside the live records. */
  ghost predicate Noted(cfg: Config, before: seq<Record>, after: seq<Record>, h: Host, d: Decision) {
    if d.kind.WouldRestart? || d.kind.WouldStop? then
      && d.culprit.Some? && d.action.Some? && after != []
      && var (s, n) := (d.culprit.value.service, |after| - 1);
         && after[n] == Record(s.id, s.name, d.action.value, h.at, d.culprit.value.size, false)
         && forall r :: r in after[..n] <==> r in before && h.at - r.at <= cfg.repeatWindow
    else after == before
  }

  lemma {:induction false} DecidesSo(cfg: Config, g: Guard, h: Host, c: Option<Culprit>)
    ensures var (t, d) := Observe(cfg, g, h, c);
            d.Some? && d.value.Opens() ==>
              Decided(cfg, g.records, h, c, d.value) && Noted(cfg, g.records, t.records, h, d.value)
  {
    hide Decide, Decided, Noted, IsDanger, Observe;
    var (t, d) := Observe(cfg, g, h, c);
    if d.Some? && d.value.Opens() {
      var g2 := OpensByDecide(cfg, g, h, c);
      DecideSays(cfg, g2, h, c);
    }
  }

  lemma {:induction false} OpensByDecide(cfg: Config, g: Guard, h: Host, c: Option<Culprit>) returns (g2: Guard)
    requires Observe(cfg, g, h, c).1.Some? && Observe(cfg, g, h, c).1.value.Opens()
    ensures g2.records == g.records
    ensures var (t, d) := Decide(cfg, g2, h, c); Observe(cfg, g, h, c) == (t, Some(d))
  {
    hide Decide, IsDanger;
    var g1 := Track(cfg, g, h);
    g2 := if g1.ep.phase.Idle? then g1.(ep := IDLE.(phase := Danger, since := g1.dangerSince)) else g1;
  }

  lemma {:induction false} DecideSays(cfg: Config, g: Guard, h: Host, c: Option<Culprit>)
    ensures var (t, d) := Decide(cfg, g, h, c);
            Decided(cfg, g.records, h, c, d) && Noted(cfg, g.records, t.records, h, d)
  {
    if c.Some? { ActionMeans(g.records, c.value.service.id, cfg.repeatWindow, h.at); }
    hide ActionFor, ActedOn;
  }

  /** In every run a decision says what the culprit and the records at hand ask for,
      and one that only reports leaves a record of it. */
  lemma {:induction false} DecisionSays(cfg: Config, es: seq<Event>, j: nat)
    requires j < |es| && Opened(cfg, es, j)
    ensures es[j].Reading?
    ensures var (before, after) := (After(cfg, es[..j]).records, After(cfg, es[..j + 1]).records);
            && Decided(cfg, before, es[j].host, es[j].culprit, Emitted(cfg, es, j).value)
            && Noted(cfg, before, after, es[j].host, Emitted(cfg, es, j).value)
  {
    AfterStep(cfg, es, j);
    hide Observe, Decided, Noted, ActionDone, After;
    if es[j].Reading? { DecidesSo(cfg, After(cfg, es[..j]), es[j].host, es[j].culprit); }
  }

  /** Any two decisions are at least RecoveryWindow + DangerFor apart. */
  lemma {:induction false} DecisionsApart(cfg: Config, es: seq<Event>, i: nat, j: nat)
    requires i < j < |es| && InOrder(es) && Opened(cfg, es, i) && Opened(cfg, es, j)
    ensures TimeOf(es[j]) - TimeOf(es[i]) >= cfg.recoveryWindow + cfg.dangerFor
  {
    Reachable(cfg, es, j);
    LastOpenIs(cfg, es, j, i);
    var n := LastOpen(cfg, es, j);
    assert TimeOf(es[i]) <= TimeOf(es[n]);
    assert OpenedAt(cfg, es, j) == TimeOf(es[n]);
    OpenedOnDanger(cfg, es, j);
    AfterStep(cfg, es, j);
    HistoryStep(cfg, es, j);
    SinceStep(cfg, After(cfg, es[..j]), es[j]);
    hide Step, After, DangerKept, LastOpen, OpenedAt, LastReport, InOrder;
  }

  /** A not_recovered outcome answers one decision to act, whose action succeeded
      in between, and is the first report since: an episode yields at most one. */
  lemma {:induction false} NotRecoveredOnce(cfg: Config, es: seq<Event>, j: nat) returns (n: nat, m: nat)
    requires j < |es| && InOrder(es) && Emitted(cfg, es, j).Some? && !Opened(cfg, es, j)
    ensures n < m < j && Opened(cfg, es, n) && Emitted(cfg, es, n).value.act
    ensures es[m].Done? && es[m].ok && es[m].record.at == TimeOf(es[n])
    ensures forall x :: n < x < j ==> Emitted(cfg, es, x).None?
  {
    Reachable(cfg, es, j);
    StillDangerOnActed(cfg, es, j);
    n := LastOpen(cfg, es, j);
    assert Succeeded(cfg, es, j, n);
    m :| n < m < j && es[m].Done? && es[m].ok && es[m].record.at == TimeOf(es[n]);
    LastOpenIs(cfg, es, j, 0);
    forall x | n < x < j ensures Emitted(cfg, es, x).None? { LastOpenIs(cfg, es, j, x); }
  }

  lemma {:induction false} StillDangerOnActed(cfg: Config, es: seq<Event>, j: nat)
    requires j < |es| && Emitted(cfg, es, j).Some? && !Opened(cfg, es, j)
    ensures After(cfg, es[..j]).ep.phase.Acted? && After(cfg, es[..j]).ep.doneAt != 0
  {
    hide ActionFor, AddRecord, After;
  }

  /** One event of an unbroken run of danger readings too short to decide upon. */
  lemma {:induction false} RunStep(cfg: Config, g: Guard, e: Event, since: Time)
    requires g.ep.phase.Danger? && g.dangerSince == since != 0 && !ClearAt(cfg, e)
    ensures var (t, d) := Step(cfg, g, e);
            if e.Reading? && TimeOf(e) - since >= cfg.dangerFor then d.Some? && d.value.Opens()
            else d.None? && t.ep.phase.Danger? && t.dangerSince == since
  {
    hide ActionFor, AddRecord;
  }

  lemma {:induction false} RunBegins(cfg: Config, g: Guard, e: Event)
    requires g.ep.phase.Idle? && g.dangerSince == 0 && DangerAt(cfg, e) && TimeOf(e) > 0
    ensures var (t, d) := Step(cfg, g, e);
            if cfg.dangerFor <= 0 then d.Some? && d.value.Opens()
            else d.None? && t.ep.phase.Danger? && t.dangerSince == TimeOf(e)
  {
    hide ActionFor, AddRecord;
  }

  /** No reading of events i to k - 1 comes DangerFor after event i. */
  ghost predicate Short(cfg: Config, es: seq<Event>, i: nat, k: nat)
    requires i < |es| && k <= |es|
  {
    forall x :: i <= x < k && DangerAt(cfg, es[x]) ==> TimeOf(es[x]) - TimeOf(es[i]) < cfg.dangerFor
  }

  lemma {:induction false} ShortRun(cfg: Config, es: seq<Event>, i: nat, k: nat)
    requires i < k <= |es| && InOrder(es) && After(cfg, es[..i]).ep.phase.Idle? && After(cfg, es[..i]).dangerSince == 0
    requires UnbrokenDanger(cfg, es, i, k) && Short(cfg, es, i, k)
    ensures var g := After(cfg, es[..k]); g.ep.phase.Danger? && g.dangerSince == TimeOf(es[i])
    ensures forall x :: i <= x < k ==> Emitted(cfg, es, x).None?
  {
    hide Step, After, Emitted;
    var n := k - 1;
    AfterStep(cfg, es, n);
    if n == i {
      RunBegins(cfg, After(cfg, es[..i]), es[i]);
    } else {
      ShortRun(cfg, es, i, n);
      RunStep(cfg, After(cfg, es[..n]), es[n], TimeOf(es[i]));
    }
  }

  lemma {:induction false} IdleIsClear(cfg: Config, es: seq<Event>, i: nat)
    requires i <= |es| && InOrder(es) && After(cfg, es[..i]).ep.phase.Idle?
    ensures After(cfg, es[..i]).dangerSince == 0
  {
    Reachable(cfg, es, i);
    hide After, DangerKept, LastOpen, OpenedAt, LastReport;
  }

  /** A run of danger readings that begins while the episode is idle is decided upon
      at its first reading DangerFor after the beginning, and not before. */
  lemma {:induction false} IdleDangerDecided(cfg: Config, es: seq<Event>, i: nat, j: nat)
    requires i <= j < |es| && InOrder(es) && After(cfg, es[..i]).ep.phase.Idle?
    requires UnbrokenDanger(cfg, es, i, j + 1) && DangerAt(cfg, es[j]) && Short(cfg, es, i, j)
    ensures Opened(cfg, es, j) <==> TimeOf(es[j]) - TimeOf(es[i]) >= cfg.dangerFor
    ensures forall x :: i <= x < j ==> Emitted(cfg, es, x).None?
  {
    hide Step, After, Emitted;
    IdleIsClear(cfg, es, i);
    AfterStep(cfg, es, j);
    if i == j {
      RunBegins(cfg, After(cfg, es[..i]), es[i]);
    } else {
      ShortRun(cfg, es, i, j);
      RunStep(cfg, After(cfg, es[..j]), es[j], TimeOf(es[i]));
    }
  }
}
