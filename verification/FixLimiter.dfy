/** A command check's fix: taken after enough Bad verdicts, a few times an hour, and
    not again within its grace. Runs do not overlap. Times are in nanoseconds; the
    zero time is 0. */
module FixLimiter {
  import opened Basics

  type Time = nat

  const HOUR: int := 3_600_000_000_000

  datatype Config = Config(after: int, maxPerHour: nat, grace: int, container: bool)

  datatype State = State(strikes: int, fixes: seq<Time>, lastFix: Time, inFlight: bool)

  const START := State(0, [], 0, false)

  /** What the container runtime says of the fix's target: no runtime, no start
      time to be had, or the start time (0 when it has none). */
  datatype Target = NoRuntime | Unreadable | Started(at: Time)

  // ---------------------------------------------------------------- one fix

  function Prune(fixes: seq<Time>, now: Time): seq<Time> {
    if fixes == [] then []
    else
      var n := |fixes| - 1;
      Prune(fixes[..n], now) + if now - fixes[n] < HOUR then [fixes[n]] else []
  }

  /** Takes the strikes and records the fix time when the fix may run. */
  function Reserve(cfg: Config, s: State, now: Time): (State, Option<int>) {
    if s.strikes < cfg.after || s.inFlight then (s, None)
    else
      var t := s.(fixes := Prune(s.fixes, now));
      if |t.fixes| >= cfg.maxPerHour then (t, None)
      else if !cfg.container && s.lastFix != 0 && now - s.lastFix < cfg.grace then (t, None)
      else (t.(strikes := 0, inFlight := true, fixes := t.fixes + [now]), Some(s.strikes))
  }

  function RemoveLast(fixes: seq<Time>, now: Time): seq<Time> {
    if fixes == [] then []
    else
      var n := |fixes| - 1;
      if fixes[n] == now then fixes[..n] else RemoveLast(fixes[..n], now) + [fixes[n]]
  }

  function Abort(s: State, now: Time, saved: int): State {
    s.(inFlight := false, strikes := s.strikes + saved, fixes := RemoveLast(s.fixes, now))
  }

  function Complete(s: State, done: Time): State { s.(inFlight := false, lastFix := done) }

  predicate Refuses(cfg: Config, now: Time, target: Target) {
    cfg.container && (!target.Started? || (target.at != 0 && now - target.at < cfg.grace))
  }

  /** maybeFix; `done` is when the fix has run. The second value tells whether it
      did. */
  function MaybeFix(cfg: Config, s: State, now: Time, target: Target, done: Time): (State, bool) {
    var (t, saved) := Reserve(cfg, s, now);
    if saved.None? then (t, false)
    else if Refuses(cfg, now, target) then (Abort(t, now, saved.value), false)
    else (Complete(t, done), true)
  }

  /** One run of the check; a check without a fix never takes one. */
  datatype Verdict = Good | Bad | Unread

  datatype Run = Run(verdict: Verdict, now: Time, target: Target, done: Time)

  function RunOnce(cfg: Config, s: State, r: Run): (State, bool) {
    match r.verdict
    case Good => (s.(strikes := 0), false)
    case Unread => (s, false)
    case Bad => MaybeFix(cfg, s.(strikes := s.strikes + 1), r.now, r.target, r.done)
  }

  lemma {:induction false} RemoveNone(now: Time)
    ensures RemoveLast([], now) == []
  {
  }

  lemma {:induction false} RemoveStep(all: seq<Time>, now: Time, i: nat)
    requires 0 < i <= |all|
    ensures RemoveLast(all[..i], now) + all[i..] ==
            if all[i - 1] == now then all[..i - 1] + all[i..] else RemoveLast(all[..i - 1], now) + all[i - 1..]
  {
    assert all[..i][..i - 1] == all[..i - 1] && all[i - 1..] == [all[i - 1]] + all[i..];
  }

  // ---------------------------------------------------------------- the object

  /** Searches from the end for the fix time and deletes it. */
  method WithoutLast(all: seq<Time>, now: Time) returns (left: seq<Time>)
    ensures left == RemoveLast(all, now)
  {
    hide RemoveLast;
    RemoveNone(now);
    var i := |all|;
    assert all[..i] == all && all[i..] == [];
    while i > 0
      invariant 0 <= i <= |all| && RemoveLast(all, now) == RemoveLast(all[..i], now) + all[i..]
    {
      RemoveStep(all, now, i);
      i := i - 1;
      if all[i] == now { return all[..i] + all[i + 1..]; }
    }
    assert all[..0] == [] && all[0..] == all;
    left := all;
  }

  class Check {
    const cfg: Config
    var strikes: int
    var fixes: seq<Time>
    var lastFix: Time
    var inFlight: bool

    constructor (cfg: Config)
      ensures this.cfg == cfg && Now() == START
    {
      this.cfg := cfg;
      strikes, fixes, lastFix, inFlight := 0, [], 0, false;
    }

    ghost function Now(): State
      reads this
    {
      State(strikes, fixes, lastFix, inFlight)
    }

    method PruneFixes(now: Time)
      modifies this`fixes
      ensures fixes == Prune(old(fixes), now)
    {
      var all, kept := fixes, [];
      for i := 0 to |all|
        invariant kept == Prune(all[..i], now)
      {
        assert all[..i + 1][..i] == all[..i];
        if now - all[i] < HOUR { kept := kept + [all[i]]; }
      }
      assert all[..|all|] == all;
      fixes := kept;
    }

    method ReserveFix(now: Time) returns (saved: Option<int>)
      modifies this
      ensures (Now(), saved) == Reserve(cfg, old(Now()), now)
    {
      if strikes < cfg.after { return None; }
      if inFlight { return None; }
      PruneFixes(now);
      if |fixes| >= cfg.maxPerHour { return None; }
      if !cfg.container && lastFix != 0 && now - lastFix < cfg.grace { return None; }
      saved := Some(strikes);
      strikes, inFlight, fixes := 0, true, fixes + [now];
    }

    method AbortFix(now: Time, saved: int)
      modifies this
      ensures Now() == Abort(old(Now()), now, saved)
    {
      inFlight := false;
      strikes := strikes + saved;
      var left := WithoutLast(fixes, now);
      fixes := left;
    }

    method TryFix(now: Time, target: Target, done: Time) returns (fixed: bool)
      modifies this
      ensures (Now(), fixed) == MaybeFix(cfg, old(Now()), now, target, done)
    {
      hide Reserve, Abort;
      var saved := ReserveFix(now);
      if saved.None? { return false; }
      if cfg.container {
        if !target.Started? || (target.at != 0 && now - target.at < cfg.grace) {
          AbortFix(now, saved.value);
          return false;
        }
      }
      inFlight := false;
      lastFix := done;
      fixed := true;
    }

    method Record(r: Run) returns (fixed: bool)
      modifies this
      ensures (Now(), fixed) == RunOnce(cfg, old(Now()), r)
    {
      hide MaybeFix;
      if r.verdict.Unread? { return false; }
      if r.verdict.Good? {
        strikes := 0;
        return false;
      }
      strikes := strikes + 1;
      fixed := TryFix(r.now, r.target, r.done);
    }
  }
}
