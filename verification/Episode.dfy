/** The danger episode of the memory guard: what one host reading or one finished
    action does to it, and what holds over every run of readings.

    Times are instants counted from the zero time, which is 0; no clock reads it. */
module Episode {
  import opened Basics

  type Time = nat

  datatype Kind = Container | Unit

  datatype Service = Service(id: string, kind: Kind, name: string, cgroup: string, eligible: bool, protected: bool)

  datatype Culprit = Culprit(service: Service, before: nat, size: nat, growth: nat, window: int)

  datatype Action = Restart | Stop | Kill

  /** One intervention; `act` tells it apart from what report mode would do. */
  datatype Record = Record(serviceID: string, name: string, action: Action, at: Time, before: nat, act: bool)
  {
    predicate Within(window: int, now: Time) { now - at <= window }
  }

  datatype Config = Config(
    act: bool, dangerAvailable: real, dangerPressure: real, dangerFor: int, repeatWindow: int, recoveryWindow: int)

  datatype Host = Host(at: Time, available: real, pressure: real)

  datatype Phase = Idle | Danger | Acted | Reported | NotRecovered

  datatype Episode = Episode(
    phase: Phase, since: Time, culprit: Option<Culprit>, action: Action, actedAt: Time, doneAt: Time)

  const IDLE := Episode(Idle, 0, None, Restart, 0, 0)

  datatype Guard = Guard(ep: Episode, dangerSince: Time, clearSince: Time, records: seq<Record>)

  const START := Guard(IDLE, 0, 0, [])

  datatype OutcomeKind =
    | Restarted | Stopped | WouldRestart | WouldStop | StillDanger | Protected | NoCulprit

  /** What one host reading makes the guard report, and whether it must act. */
  datatype Decision = Decision(
    act: bool, kind: OutcomeKind, culprit: Option<Culprit>, action: Option<Action>, lastAction: Time,
    record: Option<Record>)
  {
    /** A decision that opens the episode's answer, as opposed to the second
        outcome of an episode that did not recover. */
    predicate Opens() { !kind.StillDanger? }
  }

  // ---------------------------------------------------------------- records

  function Prune(records: seq<Record>, window: int, now: Time): (r: seq<Record>)
    ensures forall x :: x in r <==> x in records && x.Within(window, now)
  {
    if records == [] then []
    else
      var rest := Prune(records[1..], window, now);
      assert records == [records[0]] + records[1..];
      if records[0].Within(window, now) then [records[0]] + rest else rest
  }

  function AddRecord(records: seq<Record>, window: int, now: Time, r: Record): seq<Record> {
    Prune(records, window, now) + [r]
  }

  ghost predicate OldestFirst(records: seq<Record>) {
    forall i, j :: 0 <= i < j < |records| ==> records[i].at <= records[j].at
  }

  ghost predicate NoRepeats(records: seq<Record>) {
    forall i, j :: 0 <= i < j < |records| ==> records[i] != records[j]
  }

  /** The records of `more` still within the window, appended to `merged` unless it
      holds them. */
  function AddNew(merged: seq<Record>, more: seq<Record>, window: int, now: Time): (r: seq<Record>)
    ensures forall x :: x in r <==> x in merged || (x in more && x.Within(window, now))
    ensures NoRepeats(merged) ==> NoRepeats(r)
    decreases |more|
  {
    if more == [] then merged
    else
      assert more == [more[0]] + more[1..];
      var next := if more[0].Within(window, now) && more[0] !in merged then merged + [more[0]] else merged;
      AddNew(next, more[1..], window, now)
  }

  /** Puts r after every record of an ordered list that is not younger. */
  function InsertByAge(sorted: seq<Record>, r: Record): (s: seq<Record>) {
    if sorted == [] then [r]
    else
      var n := |sorted| - 1;
      if sorted[n].at <= r.at then sorted + [r] else InsertByAge(sorted[..n], r) + [sorted[n]]
  }

  lemma {:induction false} InsertKeeps(sorted: seq<Record>, r: Record)
    ensures multiset(InsertByAge(sorted, r)) == multiset(sorted) + multiset{r}
  {
    if sorted != [] {
      var n := |sorted| - 1;
      assert sorted == sorted[..n] + [sorted[n]];
      InsertKeeps(sorted[..n], r);
    }
  }

  lemma {:induction false} InsertOrders(sorted: seq<Record>, r: Record, bound: Time)
    requires OldestFirst(sorted) && r.at <= bound && forall i :: 0 <= i < |sorted| ==> sorted[i].at <= bound
    ensures OldestFirst(InsertByAge(sorted, r))
    ensures forall i :: 0 <= i < |InsertByAge(sorted, r)| ==> InsertByAge(sorted, r)[i].at <= bound
  {
    if sorted != [] {
      var n := |sorted| - 1;
      if sorted[n].at > r.at { InsertOrders(sorted[..n], r, sorted[n].at); }
    }
  }

  /** Stable: records of the same instant keep their order. */
  function SortByAge(records: seq<Record>): (s: seq<Record>)
    ensures OldestFirst(s) && multiset(s) == multiset(records)
  {
    if records == [] then []
    else
      var n := |records| - 1;
      assert records == records[..n] + [records[n]];
      var front := SortByAge(records[..n]);
      InsertKeeps(front, records[n]);
      InsertOrders(front, records[n], Youngest(front, records[n].at));
      InsertByAge(front, records[n])
  }

  ghost function Youngest(records: seq<Record>, at: Time): (bound: Time)
    ensures at <= bound && forall i :: 0 <= i < |records| ==> records[i].at <= bound
  {
    if records == [] then at
    else
      var n := |records| - 1;
      var bound := Youngest(records[..n], at);
      if records[n].at > bound then records[n].at else bound
  }

  /** The records of both lists still within the window, each once, oldest
      first. */
  function MergeRecords(own: seq<Record>, more: seq<Record>, window: int, now: Time): (r: seq<Record>)
    ensures forall x :: x in r <==> (x in own || x in more) && x.Within(window, now)
    ensures OldestFirst(r) && NoRepeats(r)
  {
    var merged := AddNew(AddNew([], own, window, now), more, window, now);
    SameElements(SortByAge(merged), merged);
    SortByAge(merged)
  }

  lemma {:induction false} SameElements(s: seq<Record>, t: seq<Record>)
    requires multiset(s) == multiset(t)
    ensures forall x :: x in s <==> x in t
    ensures NoRepeats(t) ==> NoRepeats(s)
  {
    forall x ensures x in s <==> x in t { assert x in s <==> x in multiset(s); assert x in t <==> x in multiset(t); }
    if NoRepeats(t) {
      forall i, j | 0 <= i < j < |s| ensures s[i] != s[j] {
        OnceEach(t, s[i]);
        if s[i] == s[j] { TwiceThere(s, i, j); }
      }
    }
  }

  lemma {:induction false} OnceEach(t: seq<Record>, x: Record)
    requires NoRepeats(t)
    ensures multiset(t)[x] <= 1
  {
    if t != [] {
      var n := |t| - 1;
      assert t == t[..n] + [t[n]];
      OnceEach(t[..n], x);
      if t[n] == x { assert x !in t[..n]; assert x !in multiset(t[..n]); }
    }
  }

  lemma {:induction false} TwiceThere(s: seq<Record>, i: nat, j: nat)
    requires i < j < |s| && s[i] == s[j]
    ensures multiset(s)[s[i]] >= 2
  {
    assert s == s[..j] + s[j..];
    assert s[i] == s[..j][i] && s[j] == s[j..][0];
    assert s[i] in multiset(s[..j]) && s[i] in multiset(s[j..]);
  }

  predicate Counts(r: Record, id: string, window: int, now: Time) {
    r.serviceID == id && r.act && r.Within(window, now)
  }

  /** When tgshd last acted on the service within the window; 0 for never. */
  function LastActed(records: seq<Record>, id: string, window: int, now: Time): (last: Time)
    ensures forall r :: r in records && Counts(r, id, window, now) ==> r.at <= last
    ensures last != 0 ==> exists r :: r in records && Counts(r, id, window, now) && r.at == last
  {
    if records == [] then 0
    else
      var n := |records| - 1;
      var last := LastActed(records[..n], id, window, now);
      assert records == records[..n] + [records[n]];
      if Counts(records[n], id, window, now) && records[n].at > last then records[n].at else last
  }

  function ActionFor(records: seq<Record>, id: string, window: int, now: Time): (Action, Time) {
    if window <= 0 then (Restart, 0)
    else
      var last := LastActed(records, id, window, now);
      if last == 0 then (Restart, 0) else (Stop, last)
  }

  /** tgshd acted on the service at `at`, within the window. */
  ghost predicate ActedOn(records: seq<Record>, id: string, window: int, now: Time, at: Time) {
    at > 0 && now - at <= window && exists r :: r in records && r.serviceID == id && r.act && r.at == at
  }

  /** A service tgshd acted on within the window is stopped, any other restarted. */
  lemma {:induction false} ActionMeans(records: seq<Record>, id: string, window: int, now: Time)
    ensures var (action, last) := ActionFor(records, id, window, now);
            && action == (if window > 0 && exists at :: ActedOn(records, id, window, now, at) then Stop else Restart)
            && (action.Stop? ==>
                  ActedOn(records, id, window, now, last)
                  && forall at: Time :: ActedOn(records, id, window, now, at) ==> at <= last)
            && (action.Restart? ==> last == 0)
  {
    hide LastActed;
    var last := LastActed(records, id, window, now);
    forall at | ActedOn(records, id, window, now, at) ensures at <= last {
      var r :| r in records && r.serviceID == id && r.act && r.at == at;
      assert Counts(r, id, window, now);
    }
    if last != 0 {
      var r :| r in records && Counts(r, id, window, now) && r.at == last;
      assert ActedOn(records, id, window, now, last);
    }
  }

  // ---------------------------------------------------------------- readings

  predicate IsDanger(cfg: Config, h: Host) {
    h.available < cfg.dangerAvailable && h.pressure >= cfg.dangerPressure
  }

  function Track(cfg: Config, g: Guard, h: Host): Guard {
    if IsDanger(cfg, h) then g.(dangerSince := if g.dangerSince == 0 then h.at else g.dangerSince, clearSince := 0)
    else g.(dangerSince := 0, clearSince := if g.clearSince == 0 then h.at else g.clearSince)
  }

  function Recovered(cfg: Config, g: Guard, h: Host): (Guard, Option<Decision>) {
    if g.ep.doneAt == 0 || h.at - g.ep.doneAt < cfg.recoveryWindow then (g, None)
    else if !IsDanger(cfg, h) then
      (if h.at - g.clearSince >= cfg.dangerFor then g.(ep := IDLE) else g, None)
    else
      (g.(ep := g.ep.(phase := NotRecovered)),
       Some(Decision(false, StillDanger, g.ep.culprit, Some(g.ep.action), 0, None)))
  }

  function Decide(cfg: Config, g: Guard, h: Host, c: Option<Culprit>): (Guard, Decision) {
    if c.None? then (g.(ep := g.ep.(phase := Reported)), Decision(false, NoCulprit, None, None, 0, None))
    else
      var ep := g.ep.(culprit := c);
      var s := c.value.service;
      if s.protected then (g.(ep := ep.(phase := Reported)), Decision(false, Protected, c, None, 0, None))
      else
        var (action, last) := ActionFor(g.records, s.id, cfg.repeatWindow, h.at);
        var rec := Record(s.id, s.name, action, h.at, c.value.size, cfg.act);
        if !cfg.act then
          (g.(ep := ep.(phase := Reported), records := AddRecord(g.records, cfg.repeatWindow, h.at, rec)),
           Decision(false, if action.Stop? then WouldStop else WouldRestart, c, Some(action), last, None))
        else
          (g.(ep := ep.(phase := Acted, action := action, actedAt := h.at)),
           Decision(true, if action.Stop? then Stopped else Restarted, c, Some(action), last, Some(rec)))
  }

  /** ObserveHost; `c` is the culprit at the reading, if any. */
  function Observe(cfg: Config, g0: Guard, h: Host, c: Option<Culprit>): (Guard, Option<Decision>) {
    var g := Track(cfg, g0, h);
    var danger := IsDanger(cfg, h);
    match g.ep.phase
    case Acted => Recovered(cfg, g, h)
    case Reported =>
      (if !danger && h.at - g.clearSince >= cfg.recoveryWindow then g.(ep := IDLE) else g, None)
    case NotRecovered =>
      (if !danger && h.at - g.clearSince >= cfg.recoveryWindow then g.(ep := IDLE) else g, None)
    case _ =>
      if !danger then (g.(ep := IDLE), None)
      else
        var g2 := if g.ep.phase.Idle? then g.(ep := IDLE.(phase := Danger, since := g.dangerSince)) else g;
        if h.at - g2.dangerSince < cfg.dangerFor then (g2, None)
        else
          var (g3, d) := Decide(cfg, g2, h, c);
          (g3, Some(d))
  }

  /** ActionDone: the action of record r finished at `at`. */
  function ActionDone(cfg: Config, g: Guard, at: Time, r: Record, ok: bool): Guard {
    var current := g.ep.phase.Acted? && g.ep.actedAt == r.at;
    if !ok then (if current then g.(ep := g.ep.(phase := Reported)) else g)
    else
      var g2 := if current then g.(ep := g.ep.(action := r.action, doneAt := at)) else g;
      g2.(records := AddRecord(g.records, cfg.repeatWindow, r.at, r))
  }

  // ---------------------------------------------------------------- runs

  /** What happens to a guard, in order: a reading with the culprit it would find,
      a finished action, or records replaced (by a merge or a restore). */
  datatype Event =
    | Reading(host: Host, culprit: Option<Culprit>)
    | Done(at: Time, record: Record, ok: bool)
    | Records(at: Time, records: seq<Record>)

  function TimeOf(e: Event): Time {
    match e
    case Reading(h, _) => h.at
    case Done(at, _, _) => at
    case Records(at, _) => at
  }

  function Step(cfg: Config, g: Guard, e: Event): (Guard, Option<Decision>) {
    match e
    case Reading(h, c) => Observe(cfg, g, h, c)
    case Done(at, r, ok) => (ActionDone(cfg, g, at, r, ok), None)
    case Records(_, records) => (g.(records := records), None)
  }

  function After(cfg: Config, es: seq<Event>): Guard {
    if es == [] then START else Step(cfg, After(cfg, es[..|es| - 1]), es[|es| - 1]).0
  }

  /** What event j of a run makes the guard report. */
  function Emitted(cfg: Config, es: seq<Event>, j: nat): Option<Decision>
    requires j < |es|
  {
    Step(cfg, After(cfg, es[..j]), es[j]).1
  }

  /** Every clock reading is after the zero time, and none goes back. */
  ghost predicate InOrder(es: seq<Event>) {
    && (forall i :: 0 <= i < |es| ==> TimeOf(es[i]) > 0)
    && (forall i, j :: 0 <= i < j < |es| ==> TimeOf(es[i]) <= TimeOf(es[j]))
  }

  /** Little memory is available and processes stall for it. */
  predicate DangerAt(cfg: Config, e: Event) {
    e.Reading? && e.host.available < cfg.dangerAvailable && e.host.pressure >= cfg.dangerPressure
  }

  predicate ClearAt(cfg: Config, e: Event) {
    e.Reading? && (e.host.available >= cfg.dangerAvailable || e.host.pressure < cfg.dangerPressure)
  }

  /** Among events i to k - 1, i is a danger reading and none is a clear one. */
  ghost predicate UnbrokenDanger(cfg: Config, es: seq<Event>, i: nat, k: nat)
    requires k <= |es|
  {
    i < k && DangerAt(cfg, es[i]) && forall x :: i <= x < k ==> !ClearAt(cfg, es[x])
  }
}
