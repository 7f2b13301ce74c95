/** The alert engine: when a condition's bad time raises a PROBLEM, and when it is
    resolved. Times and durations are in nanoseconds; the zero time is 0. */
module Engine {
  import opened Basics

  type Time = nat

  const SECOND: int := 1_000_000_000

  datatype Verdict = Good | Bad | Unknown

  datatype Reading = Reading(key: string, event: bool, verdict: Verdict, text: string, since: Time, mode: string)

  datatype AlertKind = Problem | Resolved | Event

  datatype Alert = Alert(kind: AlertKind, check: string, key: string, text: string, streakStart: Time, mode: string)

  datatype Condition = Condition(
    key: string, check: string, streakStart: Time, badFor: int, lastReadingAt: Time, lastText: string,
    open: bool, openedAt: Time)

  type Conditions = map<string, Condition>

  /** One reading adds at most one and a half intervals; the product truncates. */
  function GapCap(interval: int): int {
    if interval >= 0 then 3 * interval / 2 else -(3 * -interval / 2)
  }

  /** The condition after its Bad reading, before it may be raised. */
  function Aged(conds: Conditions, now: Time, check: string, interval: int, r: Reading): Condition {
    var c :=
      if r.key !in conds then
        Condition(r.key, check, if r.since != 0 && r.since < now then r.since else now, 0, 0, "", false, 0)
      else if conds[r.key].lastReadingAt == 0 then conds[r.key]
      else
        var elapsed := if now - conds[r.key].lastReadingAt <= GapCap(interval)
                       then now - conds[r.key].lastReadingAt else GapCap(interval);
        conds[r.key].(badFor := conds[r.key].badFor + if elapsed > 0 then elapsed else 0);
    c.(check := check, lastReadingAt := now, lastText := r.text)
  }

  function OnBad(conds: Conditions, now: Time, check: string, interval: int, threshold: int, r: Reading)
    : (Conditions, seq<Alert>)
  {
    var c := Aged(conds, now, check, interval, r);
    if c.open || c.badFor < threshold then (conds[r.key := c], [])
    else (conds[r.key := c.(open := true, openedAt := now)],
          [Alert(Problem, check, r.key, r.text, c.streakStart, r.mode)])
  }

  function OnGood(conds: Conditions, check: string, r: Reading): (Conditions, seq<Alert>) {
    if r.key !in conds then (conds, [])
    else
      var c := conds[r.key];
      (conds - {r.key},
       if c.open then
         [Alert(Resolved, check, r.key, if r.text == "" then c.lastText else r.text, c.streakStart, r.mode)]
       else [])
  }

  function ApplyOne(conds: Conditions, now: Time, check: string, interval: int, threshold: int, r: Reading)
    : (Conditions, seq<Alert>)
  {
    if r.event then (conds, [Alert(Event, check, r.key, r.text, 0, r.mode)])
    else
      match r.verdict
      case Bad => OnBad(conds, now, check, interval, threshold, r)
      case Good => OnGood(conds, check, r)
      case Unknown => (conds, [])
  }

  function ApplyAll(conds: Conditions, now: Time, check: string, interval: int, threshold: int, rs: seq<Reading>)
    : (Conditions, seq<Alert>)
  {
    if rs == [] then (conds, [])
    else
      var n := |rs| - 1;
      var (before, out) := ApplyAll(conds, now, check, interval, threshold, rs[..n]);
      var (after, more) := ApplyOne(before, now, check, interval, threshold, rs[n]);
      (after, out + more)
  }

  predicate HasPrefix(s: string, prefix: string) { |prefix| <= |s| && s[..|prefix|] == prefix }

  function Reopen(conds: Conditions, key: string): (Conditions, bool) {
    if key !in conds || !conds[key].open then (conds, false)
    else (conds[key := conds[key].(open := false, openedAt := 0)], true)
  }

  function Merge(conds: Conditions, stored: seq<Condition>): Conditions {
    if stored == [] then conds
    else
      var n := |stored| - 1;
      var before := Merge(conds, stored[..n]);
      if stored[n].key in before then before else before[stored[n].key := stored[n]]
  }

  // ---------------------------------------------------------------- the object

  class AlertEngine {
    var conds: Conditions

    constructor ()
      ensures conds == map[]
    {
      conds := map[];
    }

    method BadReading(now: Time, check: string, interval: int, threshold: int, r: Reading) returns (out: seq<Alert>)
      modifies this
      ensures (conds, out) == OnBad(old(conds), now, check, interval, threshold, r)
    {
      var c: Condition;
      if r.key !in conds {
        c := Condition(r.key, check, now, 0, 0, "", false, 0);
        if r.since != 0 && r.since < now { c := c.(streakStart := r.since); }
      } else {
        c := conds[r.key];
        if c.lastReadingAt != 0 {
          var elapsed := now - c.lastReadingAt;
          if elapsed > GapCap(interval) { elapsed := GapCap(interval); }
          if elapsed > 0 { c := c.(badFor := c.badFor + elapsed); }
        }
      }
      c := c.(check := check, lastReadingAt := now, lastText := r.text);
      conds := conds[r.key := c];
      if c.open || c.badFor < threshold { return []; }
      ghost var was := old(conds);
      conds := conds[r.key := c.(open := true, openedAt := now)];
      assert conds == was[r.key := c.(open := true, openedAt := now)];
      out := [Alert(Problem, check, r.key, r.text, c.streakStart, r.mode)];
    }

    method GoodReading(check: string, r: Reading) returns (out: seq<Alert>)
      modifies this
      ensures (conds, out) == OnGood(old(conds), check, r)
    {
      if r.key !in conds { return []; }
      var c := conds[r.key];
      conds := conds - {r.key};
      if !c.open { return []; }
      var text := r.text;
      if text == "" { text := c.lastText; }
      out := [Alert(Resolved, check, r.key, text, c.streakStart, r.mode)];
    }

    method Apply(now: Time, check: string, interval: int, threshold: int, rs: seq<Reading>) returns (out: seq<Alert>)
      modifies this
      ensures (conds, out) == ApplyAll(old(conds), now, check, interval, threshold, rs)
    {
      hide OnBad, OnGood;
      out := [];
      for i := 0 to |rs|
        invariant (conds, out) == ApplyAll(old(conds), now, check, interval, threshold, rs[..i])
      {
        assert rs[..i + 1][..i] == rs[..i];
        var r, more := rs[i], [];
        if r.event {
          more := [Alert(Event, check, r.key, r.text, 0, r.mode)];
        } else if r.verdict.Bad? {
          more := BadReading(now, check, interval, threshold, r);
        } else if r.verdict.Good? {
          more := GoodReading(check, r);
        }
        out := out + more;
      }
      assert rs[..|rs|] == rs;
    }

    method Clear(key: string) returns (tracked: bool)
      modifies this
      ensures conds == old(conds) - {key} && tracked == (key in old(conds))
    {
      tracked := key in conds;
      conds := conds - {key};
    }

    method ClearPrefix(prefix: string) returns (n: nat)
      modifies this
      ensures conds == old(conds) - (set k | k in old(conds) && HasPrefix(k, prefix))
      ensures n == |old(conds)| - |conds|
    {
      n := 0;
      var was, kept, left := conds, conds, conds.Keys;
      while left != {}
        invariant left <= was.Keys && n == |was| - |kept|
        invariant Without(was, kept, prefix, left)
        decreases |left|
      {
        hide HasPrefix, Without;
        var k :| k in left;
        Without1(was, kept, prefix, left, k);
        left := left - {k};
        if HasPrefix(k, prefix) {
          kept := kept - {k};
          n := n + 1;
        }
      }
      WithoutAll(was, kept, prefix);
      conds := kept;
    }

    method ReopenOne(key: string) returns (ok: bool)
      modifies this
      ensures (conds, ok) == Reopen(old(conds), key)
    {
      if key !in conds || !conds[key].open { return false; }
      conds := conds[key := conds[key].(open := false, openedAt := 0)];
      ok := true;
    }

    method MergeStored(stored: seq<Condition>)
      modifies this
      ensures conds == Merge(old(conds), stored)
    {
      for i := 0 to |stored|
        invariant conds == Merge(old(conds), stored[..i])
      {
        assert stored[..i + 1][..i] == stored[..i];
        if stored[i].key in conds { continue; }
        conds := conds[stored[i].key := stored[i]];
      }
      assert stored[..|stored|] == stored;
    }

    /** What the runner does with a message dropped from the retry queue: whether it
        must be listed as undelivered. */
    method Dropped(m: Message) returns (list: bool)
      modifies this
      ensures (conds, list) == Drop(old(conds), m)
    {
      if !m.problem { return false; }
      if m.key in conds && m.createdAt >= Truncate(conds[m.key].streakStart) {
        var ok := ReopenOne(m.key);
        if ok { return false; }
      }
      list := true;
    }
  }

  /** `kept` is `was` without the keys of the prefix that are not left to see. */
  ghost predicate Without(was: Conditions, kept: Conditions, prefix: string, left: set<string>) {
    && (forall k :: k in kept <==> k in was && (k in left || !HasPrefix(k, prefix)))
    && (forall k :: k in kept ==> kept[k] == was[k])
  }

  lemma {:induction false} Without1(was: Conditions, kept: Conditions, prefix: string, left: set<string>, k: string)
    requires Without(was, kept, prefix, left) && k in left && left <= was.Keys
    ensures HasPrefix(k, prefix) ==> Without(was, kept - {k}, prefix, left - {k}) && |kept - {k}| == |kept| - 1
    ensures !HasPrefix(k, prefix) ==> Without(was, kept, prefix, left - {k})
  {
    hide HasPrefix;
    assert k in kept;
    assert (kept - {k}).Keys == kept.Keys - {k};
    assert |kept - {k}| == |(kept - {k}).Keys| && |kept| == |kept.Keys|;
  }

  lemma {:induction false} WithoutAll(was: Conditions, kept: Conditions, prefix: string)
    requires Without(was, kept, prefix, {})
    ensures kept == was - (set k | k in was && HasPrefix(k, prefix))
  {
    hide HasPrefix;
  }

  // ---------------------------------------------------------------- dropped messages

  datatype Message = Message(problem: bool, key: string, createdAt: Time)

  function Truncate(t: Time): Time { t / SECOND * SECOND }

  function Drop(conds: Conditions, m: Message): (Conditions, bool) {
    if !m.problem then (conds, false)
    else if m.key in conds && m.createdAt >= Truncate(conds[m.key].streakStart) && conds[m.key].open then
      (Reopen(conds, m.key).0, false)
    else (conds, true)
  }
}
