/** What every sequence of runs of a command check keeps about its fixes. */
module FixRuns {
  import opened Basics
  import opened FixLimiter

  /** A fix that was taken: when it was reserved, when it had run, and how many Bad
      verdicts came since the last Good one or the last fix. */
  datatype Fix = Fix(at: Time, ended: Time, bads: nat)

  /** `taken` is every fix, never pruned; `bads` counts the Bad verdicts since the
      last Good one or the last fix. Neither is kept by the program. */
  datatype World = World(s: State, taken: seq<Fix>, bads: nat, now: Time)

  const EMPTY := World(START, [], 0, 0)

  function Next(cfg: Config, w: World, r: Run): World {
    var (s, fixed) := RunOnce(cfg, w.s, r);
    if fixed then World(s, w.taken + [Fix(r.now, r.done, w.bads + 1)], 0, r.done)
    else World(s, w.taken, if r.verdict.Good? then 0 else if r.verdict.Bad? then w.bads + 1 else w.bads, r.now)
  }

  /** Runs follow each other under a clock that never goes back. */
  ghost predicate Runs(cfg: Config, ws: seq<World>, rs: seq<Run>) {
    && |ws| == |rs| + 1 && ws[0] == EMPTY
    && forall i :: 0 <= i < |rs| ==>
         0 < rs[i].now <= rs[i].done && ws[i].now <= rs[i].now && ws[i + 1] == Next(cfg, ws[i], rs[i])
  }

  // ---------------------------------------------------------------- one reservation

  ghost predicate Ascending(fixes: seq<Time>) { forall i, j :: 0 <= i < j < |fixes| ==> fixes[i] <= fixes[j] }

  /** Of an ascending list pruning drops the front: the p fixes an hour old. */
  ghost predicate Drops(fixes: seq<Time>, now: Time, p: nat) {
    && p <= |fixes| && Prune(fixes, now) == fixes[p..]
    && (forall k :: 0 <= k < p ==> now - fixes[k] >= HOUR)
    && (forall k :: p <= k < |fixes| ==> now - fixes[k] < HOUR)
  }

  lemma {:induction false} PruneDrops(fixes: seq<Time>, now: Time) returns (p: nat)
    requires Ascending(fixes)
    ensures Drops(fixes, now, p)
  {
    if fixes == [] { return 0; }
    var n := |fixes| - 1;
    p := PruneDrops(fixes[..n], now);
    if now - fixes[n] < HOUR {
      assert fixes[p..] == fixes[..n][p..] + [fixes[n]];
    } else {
      assert p == n;
      p := n + 1;
    }
  }

  /** An aborted reservation leaves the strikes and the pruned fix times exactly as
      they were. */
  lemma {:induction false} AbortRestores(cfg: Config, s: State, now: Time)
    requires Reserve(cfg, s, now).1.Some?
    ensures var (t, saved) := Reserve(cfg, s, now);
            Abort(t, now, saved.value) == s.(fixes := Prune(s.fixes, now))
  {
    var front := Prune(s.fixes, now);
    assert (front + [now])[..|front|] == front;
  }

  // ---------------------------------------------------------------- invariants

  /** The recorded times are those of the newest fixes; the others are an hour old. */
  ghost predicate RecordedOK(fixes: seq<Time>, taken: seq<Fix>, now: Time) {
    && |fixes| <= |taken|
    && var m := |taken| - |fixes|;
       && (forall i :: 0 <= i < |fixes| ==> fixes[i] == taken[m + i].at)
       && (forall k :: 0 <= k < m ==> now - taken[k].at >= HOUR)
  }

  ghost predicate OrderOK(taken: seq<Fix>, now: Time) {
    && (forall i :: 0 <= i < |taken| ==> 0 < taken[i].at <= taken[i].ended <= now)
    && (forall i, j :: 0 <= i < j < |taken| ==> taken[i].ended <= taken[j].at)
  }

  /** Fixes within an hour of each other are fewer than the limit allows apart. */
  ghost predicate LimitOK(cfg: Config, taken: seq<Fix>) {
    forall i, j :: 0 <= i <= j < |taken| && taken[j].at - taken[i].at < HOUR ==> j - i < cfg.maxPerHour
  }

  ghost predicate GraceOK(cfg: Config, taken: seq<Fix>) {
    !cfg.container ==> forall i, j :: 0 <= i < j < |taken| ==> taken[j].at - taken[i].ended >= cfg.grace
  }

  ghost predicate StrikesOK(cfg: Config, w: World) {
    && w.s.strikes == w.bads && !w.s.inFlight
    && w.s.lastFix == (if w.taken == [] then 0 else w.taken[|w.taken| - 1].ended)
    && forall i :: 0 <= i < |w.taken| ==> w.taken[i].bads >= cfg.after
  }

  ghost predicate Inv(cfg: Config, w: World) {
    && RecordedOK(w.s.fixes, w.taken, w.now) && OrderOK(w.taken, w.now) && LimitOK(cfg, w.taken)
    && GraceOK(cfg, w.taken) && StrikesOK(cfg, w)
  }

  lemma {:induction false} RecordedAscend(fixes: seq<Time>, taken: seq<Fix>, now: Time)
    requires RecordedOK(fixes, taken, now) && OrderOK(taken, now)
    ensures Ascending(fixes)
  {
    var m := |taken| - |fixes|;
    forall i, j | 0 <= i < j < |fixes| ensures fixes[i] <= fixes[j] {
      assert taken[m + i].ended <= taken[m + j].at;
    }
  }

  lemma {:induction false} PruneRecorded(fixes: seq<Time>, taken: seq<Fix>, now: Time, later: Time)
    requires RecordedOK(fixes, taken, now) && OrderOK(taken, now) && now <= later
    ensures RecordedOK(Prune(fixes, later), taken, later)
    ensures var m := |taken| - |Prune(fixes, later)|; forall k :: m <= k < |taken| ==> later - taken[k].at < HOUR
  {
    RecordedAscend(fixes, taken, now);
    var p := PruneDrops(fixes, later);
    hide Prune, OrderOK;
    var m := |taken| - |fixes|;
    forall k | 0 <= k < m + p ensures later - taken[k].at >= HOUR {
      if k >= m { assert fixes[k - m] == taken[m + (k - m)].at; }
    }
    forall k | m + p <= k < |taken| ensures later - taken[k].at < HOUR {
      assert fixes[k - m] == taken[m + (k - m)].at;
    }
    forall i | 0 <= i < |fixes| - p ensures Prune(fixes, later)[i] == taken[m + p + i].at {
      assert fixes[p..][i] == fixes[p + i];
    }
  }

  /** A fix taken while fewer than the limit are within the hour keeps the limit. */
  lemma {:induction false} OneMoreFix(cfg: Config, fixes: seq<Time>, taken: seq<Fix>, f: Fix)
    requires RecordedOK(fixes, taken, f.at) && LimitOK(cfg, taken) && |fixes| < cfg.maxPerHour
    ensures LimitOK(cfg, taken + [f]) && RecordedOK(fixes + [f.at], taken + [f], f.at)
  {
    var more := taken + [f];
    forall i, j | 0 <= i <= j < |more| && more[j].at - more[i].at < HOUR ensures j - i < cfg.maxPerHour {
      if j < |taken| { assert taken[j].at - taken[i].at < HOUR; }
    }
  }

  lemma {:induction false} RecordedLater(fixes: seq<Time>, taken: seq<Fix>, now: Time, later: Time)
    requires RecordedOK(fixes, taken, now) && now <= later
    ensures RecordedOK(fixes, taken, later)
  {
  }

  lemma {:induction false} OneMoreOrdered(cfg: Config, taken: seq<Fix>, now: Time, f: Fix)
    requires OrderOK(taken, now) && GraceOK(cfg, taken) && now <= f.at <= f.ended && f.at > 0
    requires !cfg.container && taken != [] ==> f.at - taken[|taken| - 1].ended >= cfg.grace
    ensures OrderOK(taken + [f], f.ended) && GraceOK(cfg, taken + [f])
  {
    forall i | 0 <= i < |taken| && !cfg.container ensures f.at - taken[i].ended >= cfg.grace {
      if i < |taken| - 1 { assert taken[i].ended <= taken[|taken| - 1].at; }
    }
  }

  /** What a run does, in the terms of the invariants. */
  lemma {:induction false} RunMeans(cfg: Config, s: State, r: Run)
    requires !s.inFlight
    ensures var (t, fixed) := RunOnce(cfg, s, r);
            var pruned := Prune(s.fixes, r.now);
            && !t.inFlight
            && (fixed ==>
                  && r.verdict.Bad? && s.strikes + 1 >= cfg.after && |pruned| < cfg.maxPerHour
                  && (!cfg.container && s.lastFix != 0 ==> r.now - s.lastFix >= cfg.grace)
                  && t == State(0, pruned + [r.now], r.done, false))
            && (!fixed ==>
                  && t.lastFix == s.lastFix && (t.fixes == s.fixes || t.fixes == pruned)
                  && t.strikes == if r.verdict.Good? then 0 else if r.verdict.Bad? then s.strikes + 1 else s.strikes)
  {
    if r.verdict.Bad? {
      var u := s.(strikes := s.strikes + 1);
      if Reserve(cfg, u, r.now).1.Some? { AbortRestores(cfg, u, r.now); }
      hide Prune, Abort, Refuses;
    }
  }

  lemma {:induction false} FixKeeps(cfg: Config, w: World, r: Run)
    requires Inv(cfg, w) && 0 < r.now <= r.done && w.now <= r.now && RunOnce(cfg, w.s, r).1
    ensures Inv(cfg, Next(cfg, w, r))
  {
    hide RunOnce, Prune;
    RunMeans(cfg, w.s, r);
    var pruned, f := Prune(w.s.fixes, r.now), Fix(r.now, r.done, w.bads + 1);
    var v := Next(cfg, w, r);
    PruneRecorded(w.s.fixes, w.taken, w.now, r.now);
    OneMoreFix(cfg, pruned, w.taken, f);
    RecordedLater(pruned + [r.now], w.taken + [f], r.now, r.done);
    if w.taken != [] { assert w.taken[|w.taken| - 1].ended > 0; }
    OneMoreOrdered(cfg, w.taken, w.now, f);
    hide RecordedOK, OrderOK, LimitOK, GraceOK;
    assert v.taken == w.taken + [f];
  }

  lemma {:induction false} NoFixKeeps(cfg: Config, w: World, r: Run)
    requires Inv(cfg, w) && 0 < r.now <= r.done && w.now <= r.now && !RunOnce(cfg, w.s, r).1
    ensures Inv(cfg, Next(cfg, w, r))
  {
    hide RunOnce, Prune;
    RunMeans(cfg, w.s, r);
    PruneRecorded(w.s.fixes, w.taken, w.now, r.now);
    RecordedLater(w.s.fixes, w.taken, w.now, r.now);
    hide RecordedOK, LimitOK, GraceOK;
  }

  lemma {:induction false} Reachable(cfg: Config, ws: seq<World>, rs: seq<Run>, k: nat)
    requires Runs(cfg, ws, rs) && k < |ws|
    ensures Inv(cfg, ws[k])
  {
    if k > 0 {
      hide Inv, RunOnce;
      Reachable(cfg, ws, rs, k - 1);
      var (w, r) := (ws[k - 1], rs[k - 1]);
      if RunOnce(cfg, w.s, r).1 { FixKeeps(cfg, w, r); } else { NoFixKeeps(cfg, w, r); }
    }
  }

  // ---------------------------------------------------------------- main results

  /** The fixes reserved within the hour that begins at t. */
  ghost function Within(taken: seq<Fix>, t: int): set<nat> {
    set k: nat | k < |taken| && t <= taken[k].at < t + HOUR
  }

  ghost function Span(i: nat, j: nat): (r: set<nat>)
    requires i <= j
    ensures |r| == j - i && forall k :: k in r <==> i <= k < j
  {
    if i == j then {} else Span(i, j - 1) + {j - 1}
  }

  lemma {:induction false} Bounds(a: set<nat>) returns (lo: nat, hi: nat)
    requires a != {}
    ensures lo in a && hi in a && forall k :: k in a ==> lo <= k <= hi
    decreases a
  {
    var x :| x in a;
    var rest := a - {x};
    assert forall k :: k in a ==> k == x || k in rest;
    if rest == {} { return x, x; }
    lo, hi := Bounds(rest);
    if x < lo { lo := x; }
    if x > hi { hi := x; }
  }

  /** Any sliding hour holds at most max_per_hour completed fixes. */
  lemma {:induction false} AtMostPerHour(cfg: Config, ws: seq<World>, rs: seq<Run>, k: nat, t: int)
    requires Runs(cfg, ws, rs) && k < |ws|
    ensures |Within(ws[k].taken, t)| <= cfg.maxPerHour
  {
    Reachable(cfg, ws, rs, k);
    hide Runs;
    var taken := ws[k].taken;
    var a := Within(taken, t);
    if a != {} {
      var lo, hi := Bounds(a);
      assert taken[hi].at - taken[lo].at < HOUR;
      SubsetCount(a, Span(lo, hi + 1));
    }
  }

  /** Every fix follows at least `after` Bad verdicts since the last Good one or the
      last fix, and a command's fix comes no sooner than its grace after the fix
      before it had run. */
  lemma {:induction false} FixIsEarned(cfg: Config, ws: seq<World>, rs: seq<Run>, k: nat, i: nat)
    requires Runs(cfg, ws, rs) && k < |ws| && i < |ws[k].taken|
    ensures ws[k].taken[i].bads >= cfg.after
    ensures i > 0 && !cfg.container ==> ws[k].taken[i].at - ws[k].taken[i - 1].ended >= cfg.grace
  {
    Reachable(cfg, ws, rs, k);
    hide Runs, RecordedOK, LimitOK;
  }

  /** The fix is not withheld either: a Bad verdict that makes the strikes enough,
      with room in the past hour, outside the grace and with a target that does
      not refuse, takes it. */
  lemma {:induction false} FixIsTaken(cfg: Config, ws: seq<World>, rs: seq<Run>, k: nat)
    requires Runs(cfg, ws, rs) && k < |rs| && rs[k].verdict.Bad?
    ensures var (w, r) := (ws[k], rs[k]);
            |ws[k + 1].taken| > |w.taken| <==>
              && w.bads + 1 >= cfg.after
              && |Within(w.taken, r.now - HOUR + 1)| < cfg.maxPerHour
              && (cfg.container || w.taken == [] || r.now - w.taken[|w.taken| - 1].ended >= cfg.grace)
              && (cfg.container ==> r.target.Started? && (r.target.at == 0 || r.now - r.target.at >= cfg.grace))
  {
    Reachable(cfg, ws, rs, k);
    var (w, r) := (ws[k], rs[k]);
    RoomIs(w, r.now);
    Decides(cfg, w.s, r);
    if w.taken != [] { assert w.taken[|w.taken| - 1].ended > 0; }
    assert Refuses(cfg, r.now, r.target) <==>
           cfg.container && !(r.target.Started? && (r.target.at == 0 || r.now - r.target.at >= cfg.grace));
    hide RunOnce, Within, RecordedOK, LimitOK, GraceOK, Refuses;
    assert ws[k + 1] == Next(cfg, w, r);
  }

  lemma {:induction false} Decides(cfg: Config, s: State, r: Run)
    requires r.verdict.Bad? && !s.inFlight
    ensures RunOnce(cfg, s, r).1 <==>
              && s.strikes + 1 >= cfg.after && |Prune(s.fixes, r.now)| < cfg.maxPerHour
              && (cfg.container || s.lastFix == 0 || r.now - s.lastFix >= cfg.grace)
              && !Refuses(cfg, r.now, r.target)
  {
    hide Prune, Refuses;
  }

  /** What pruning leaves counts the fixes of the past hour. */
  lemma {:induction false} RoomIs(w: World, now: Time)
    requires RecordedOK(w.s.fixes, w.taken, w.now) && OrderOK(w.taken, w.now) && w.now <= now
    ensures |Prune(w.s.fixes, now)| == |Within(w.taken, now - HOUR + 1)|
  {
    PruneRecorded(w.s.fixes, w.taken, w.now, now);
    hide Prune;
    var m := |w.taken| - |Prune(w.s.fixes, now)|;
    assert Within(w.taken, now - HOUR + 1) == Span(m, |w.taken|);
  }
}
