/** What resolving depends_on keeps, against chains of dependencies. */
module DependsChains {
  import opened Basics
  import opened Depends

  // ---------------------------------------------------------------- cycles

  /** Where n steps lead, if that far. */
  ghost function Walk(next: map<string, string>, start: string, n: nat): Option<string> {
    if n == 0 then Some(start)
    else
      var before := Walk(next, start, n - 1);
      if before.Some? && before.value in next then Some(next[before.value]) else None
  }

  ghost predicate Loops(next: map<string, string>, start: string, n: nat) {
    n > 0 && Walk(next, start, n) == Some(start)
  }

  ghost predicate OnCycle(next: map<string, string>, start: string) { exists n :: Loops(next, start, n) }

  lemma {:induction false} WalkJoins(next: map<string, string>, start: string, m: nat, n: nat)
    requires Walk(next, start, m).Some?
    ensures Walk(next, start, m + n) == Walk(next, Walk(next, start, m).value, n)
  {
    if n > 0 { WalkJoins(next, start, m, n - 1); }
  }

  lemma {:induction false} WalkPrefix(next: map<string, string>, start: string, m: nat, n: nat)
    requires m <= n && Walk(next, start, n).Some?
    ensures Walk(next, start, m).Some?
    ensures m < n ==> Walk(next, start, m).value in next
  {
    if m < n { WalkPrefix(next, start, m, n - 1); }
  }

  /** No list without repeats is longer than the set it is from. */
  lemma {:induction false} Pigeonhole(s: seq<string>, names: set<string>)
    requires forall i :: 0 <= i < |s| ==> s[i] in names
    requires forall i, j :: 0 <= i < j < |s| ==> s[i] != s[j]
    ensures |s| <= |names|
  {
    if s != [] {
      var n := |s| - 1;
      Pigeonhole(s[..n], names - {s[n]});
    }
  }

  ghost predicate Distinct(next: map<string, string>, start: string, n: nat) {
    forall i, j :: 0 <= i < j < n ==> Walk(next, start, i) != Walk(next, start, j)
  }

  /** A walk of n names without repeats, all in `names`, is no longer than they are. */
  lemma {:induction false} ShortWalk(next: map<string, string>, start: string, n: nat, names: set<string>)
    requires forall i :: 0 <= i < n ==> Walk(next, start, i).Some? && Walk(next, start, i).value in names
    requires Distinct(next, start, n)
    ensures n <= |names|
  {
    hide Walk;
    var s := seq(n, i requires 0 <= i < n => Walk(next, start, i).value);
    forall i, j | 0 <= i < j < n ensures s[i] != s[j] {
      assert Walk(next, start, i) != Walk(next, start, j);
    }
    Pigeonhole(s, names);
  }

  /** The shortest way back repeats no name. */
  lemma {:induction false} ShortestIsDistinct(next: map<string, string>, start: string, n: nat)
    requires Loops(next, start, n) && forall m :: 0 < m < n ==> !Loops(next, start, m)
    ensures Distinct(next, start, n)
  {
    forall i, j | 0 <= i < j < n ensures Walk(next, start, i) != Walk(next, start, j) {
      if Walk(next, start, i) == Walk(next, start, j) { ShorterLoop(next, start, i, j, n); }
    }
  }

  lemma {:induction false} ShorterLoop(next: map<string, string>, start: string, i: nat, j: nat, n: nat)
    requires Loops(next, start, n) && i < j < n && Walk(next, start, i) == Walk(next, start, j)
    ensures Loops(next, start, i + (n - j))
  {
    WalkPrefix(next, start, j, n);
    WalkJoins(next, start, j, n - j);
    WalkJoins(next, start, i, n - j);
  }

  lemma {:induction false} Shortest(next: map<string, string>, start: string, n: nat) returns (m: nat)
    requires Loops(next, start, n)
    ensures m <= n && Loops(next, start, m) && forall k :: 0 < k < m ==> !Loops(next, start, k)
  {
    if k :| 0 < k < n && Loops(next, start, k) {
      m := Shortest(next, start, k);
    } else {
      m := n;
    }
  }

  /** The bounded loop returns true exactly within its rounds. */
  lemma {:induction false} ReturnsWithin(next: map<string, string>, start: string, at: nat, rounds: nat)
    requires Walk(next, start, at).Some?
    ensures Returns(next, start, Walk(next, start, at).value, rounds) <==>
            exists n :: at < n <= at + rounds && Loops(next, start, n)
    decreases rounds
  {
    var cur := Walk(next, start, at).value;
    if rounds > 0 {
      var after := at + 1;
      if cur in next {
        ReturnsWithin(next, start, after, rounds - 1);
        assert next[cur] == start <==> Loops(next, start, after);
        if Loops(next, start, after) { assert Returns(next, start, cur, rounds); }
      } else {
        forall n | at < n <= at + rounds ensures !Loops(next, start, n) {
          if Loops(next, start, n) { WalkPrefix(next, start, at, n); }
        }
      }
    }
  }

  lemma {:induction false} NextNames(http: seq<Entry>)
    ensures NextOf(http).Keys <= Names(http) && |Names(http)| <= |http|
  {
    if http != [] {
      var n := |http| - 1;
      NextNames(http[..n]);
      assert Names(http) == Names(http[..n]) + {http[n].name};
    }
  }

  /** inCycle is true exactly for an entry on a cycle: the loop's rounds are
      enough. */
  lemma {:induction false} InCycleMeansOnCycle(http: seq<Entry>, start: string)
    ensures Returns(NextOf(http), start, start, |http|) <==> OnCycle(NextOf(http), start)
  {
    var next := NextOf(http);
    assert Walk(next, start, 0) == Some(start);
    ReturnsWithin(next, start, 0, |http|);
    if OnCycle(next, start) {
      var n :| Loops(next, start, n);
      var m := Shortest(next, start, n);
      ShortestIsDistinct(next, start, m);
      forall i | 0 <= i < m ensures Walk(next, start, i).Some? && Walk(next, start, i).value in next.Keys {
        WalkPrefix(next, start, i, m);
      }
      ShortWalk(next, start, m, next.Keys);
      NextNames(http);
      SubsetCount(next.Keys, Names(http));
    }
  }

  // ---------------------------------------------------------------- chains

  /** What validation leaves: own names, and depends_on empty or of the form
      kind/name. */
  ghost predicate Valid(http: seq<Entry>) {
    OwnNames(http) && forall e :: e in http ==> e.dependsOn == "" || '/' in e.dependsOn
  }

  /** A check of another kind than http is configured under the name; a kind with one
      check only takes any name, the network's checks have theirs. */
  predicate Configured(t: Targets, kind: string, name: string) {
    if kind == "freshness" then name in t.freshness
    else if kind == "command" then name in t.command
    else if kind == "network" then t.network && name in {"connectivity", "router", "internet"}
    else if kind == "modem_probe" then t.modemProbe && name == "roundtrip"
    else if kind == "ups" then t.ups
    else if kind == "kernel" then t.kernel
    else kind == "containers" && t.containers
  }

  lemma {:induction false} KnownIsConfigured(t: Targets)
    ensures forall kind, name :: KnownElsewhere(t, kind, name) <==> Configured(t, kind, name)
  {
  }

  /** From e at most n http entries lead to one without depends_on or to a
      configured check of another kind. */
  ghost predicate Grounds(t: Targets, http: seq<Entry>, e: Entry, n: nat)
    decreases n
  {
    || e.dependsOn == ""
    || var (kind, name) := Cut(e.dependsOn);
       if kind == HTTP then n > 0 && exists f :: f in http && f.name == name && Grounds(t, http, f, n - 1)
       else Configured(t, kind, name)
  }

  ghost predicate Grounded(t: Targets, http: seq<Entry>, e: Entry) { exists n :: Grounds(t, http, e, n) }

  lemma {:induction false} NextAt(http: seq<Entry>, i: nat)
    requires OwnNames(http) && i < |http|
    ensures var target := CutPrefix(http[i].dependsOn, HTTP + "/");
            if target.Some? then http[i].name in NextOf(http) && NextOf(http)[http[i].name] == target.value
            else http[i].name !in NextOf(http)
  {
    hide CutPrefix;
    var n := |http| - 1;
    if i < n {
      NextAt(http[..n], i);
    } else {
      NextNames(http[..n]);
      assert http[i].name !in Names(http[..n]);
    }
  }

  /** An entry's next name is its http dependency. */
  lemma {:induction false} NextIs(http: seq<Entry>, e: Entry)
    requires Valid(http) && e in http
    ensures if e.dependsOn != "" && Cut(e.dependsOn).0 == HTTP
            then e.name in NextOf(http) && NextOf(http)[e.name] == Cut(e.dependsOn).1
            else e.name !in NextOf(http)
  {
    var i :| 0 <= i < |http| && http[i] == e;
    NextAt(http, i);
    if e.dependsOn != "" { PrefixIsKind(e.dependsOn); }
    hide NextOf, Cut;
  }

  lemma {:induction false} GroundsEnds(t: Targets, http: seq<Entry>, e: Entry, n: nat)
    requires Valid(http) && e in http && Grounds(t, http, e, n)
    ensures Walk(NextOf(http), e.name, n + 1).None?
    decreases n
  {
    KnownIsConfigured(t);
    hide NextOf, Cut, KnownElsewhere, Configured, Valid;
    NextIs(http, e);
    var next := NextOf(http);
    assert Walk(next, e.name, 0) == Some(e.name);
    if e.name in next {
      var f :| f in http && f.name == Cut(e.dependsOn).1 && Grounds(t, http, f, n - 1);
      GroundsEnds(t, http, f, n - 1);
      assert Walk(next, e.name, 1) == Some(f.name);
      WalkJoins(next, e.name, 1, n);
    } else if Walk(next, e.name, n + 1).Some? {
      WalkPrefix(next, e.name, 0, n + 1);
    }
  }

  lemma {:induction false} CycleGoesOn(next: map<string, string>, start: string, m: nat, k: nat)
    requires Loops(next, start, m)
    ensures Walk(next, start, k).Some?
    decreases k
  {
    if k < m {
      WalkPrefix(next, start, k, m);
    } else {
      CycleGoesOn(next, start, m, k - m);
      WalkJoins(next, start, m, k - m);
    }
  }

  lemma {:induction false} GroundedOffCycle(t: Targets, http: seq<Entry>, e: Entry, n: nat)
    requires Valid(http) && e in http && Grounds(t, http, e, n)
    ensures !OnCycle(NextOf(http), e.name)
  {
    hide NextOf;
    GroundsEnds(t, http, e, n);
    forall m ensures !Loops(NextOf(http), e.name, m) {
      if Loops(NextOf(http), e.name, m) { CycleGoesOn(NextOf(http), e.name, m, n + 1); }
    }
  }

  lemma {:induction false} SelfLoops(http: seq<Entry>, e: Entry)
    requires Valid(http) && e in http && e.dependsOn == HTTP + "/" + e.name
    ensures OnCycle(NextOf(http), e.name)
  {
    hide NextOf;
    assert e.dependsOn == HTTP + ['/'] + e.name;
    CutAt(HTTP, e.name);
    NextIs(http, e);
    assert Walk(NextOf(http), e.name, 0) == Some(e.name);
    assert Loops(NextOf(http), e.name, 1);
  }

  /** An entry whose chain ends has no problem. */
  lemma {:induction false} GroundedIsFine(t: Targets, http: seq<Entry>, e: Entry, n: nat)
    requires Valid(http) && e in http && Grounds(t, http, e, n)
    ensures Problem(t, http, e).Fine?
  {
    KnownIsConfigured(t);
    hide NextOf, Cut, KnownElsewhere, Configured, Valid, Returns, OnCycle;
    GroundedOffCycle(t, http, e, n);
    InCycleMeansOnCycle(http, e.name);
    var (kind, name) := Cut(e.dependsOn);
    assert KnownElsewhere(t, kind, name) <==> Configured(t, kind, name);
    if e.dependsOn == HTTP + "/" + e.name { SelfLoops(http, e); }
  }

  /** Every entry is fine: then from each, n steps are possible or its chain ends. */
  lemma {:induction false} GroundsOrWalks(t: Targets, http: seq<Entry>, e: Entry, n: nat)
    requires Valid(http) && e in http && forall f :: f in http ==> Problem(t, http, f).Fine?
    ensures Grounds(t, http, e, n) || Walk(NextOf(http), e.name, n + 1).Some?
    decreases n
  {
    KnownIsConfigured(t);
    hide NextOf, Cut, KnownElsewhere, Configured, Valid, Returns;
    NextIs(http, e);
    assert Problem(t, http, e).Fine?;
    var next := NextOf(http);
    assert Walk(next, e.name, 0) == Some(e.name);
    if e.name in next {
      assert Walk(next, e.name, 1) == Some(next[e.name]);
      if n > 0 {
        var i :| 0 <= i < |http| && http[i].name == next[e.name];
        GroundsOrWalks(t, http, http[i], n - 1);
        WalkJoins(next, e.name, 1, n);
      }
    }
  }

  lemma {:induction false} WalkStays(t: Targets, http: seq<Entry>, e: Entry, n: nat)
    requires Valid(http) && e in http && forall f :: f in http ==> Problem(t, http, f).Fine?
    requires Walk(NextOf(http), e.name, n).Some?
    ensures Walk(NextOf(http), e.name, n).value in Names(http)
  {
    KnownIsConfigured(t);
    hide NextOf, Cut, KnownElsewhere, Configured, Valid, Returns;
    if n > 0 {
      var next := NextOf(http);
      WalkPrefix(next, e.name, n - 1, n);
      WalkStays(t, http, e, n - 1);
      var i :| 0 <= i < |http| && http[i].name == Walk(next, e.name, n - 1).value;
      NextIs(http, http[i]);
      assert Problem(t, http, http[i]).Fine?;
    }
  }

  /** Where no entry has a problem, every chain ends. */
  lemma {:induction false} FineIsGrounded(t: Targets, http: seq<Entry>, e: Entry)
    requires Valid(http) && e in http && forall f :: f in http ==> Problem(t, http, f).Fine?
    ensures Grounds(t, http, e, |http|)
  {
    hide NextOf, Valid, Problem, Grounds, Names;
    var next, n := NextOf(http), |http| + 1;
    GroundsOrWalks(t, http, e, |http|);
    if Walk(next, e.name, n).Some? {
      forall i | 0 <= i < n ensures Walk(next, e.name, i).Some? && Walk(next, e.name, i).value in Names(http) {
        WalkPrefix(next, e.name, i, n);
        WalkStays(t, http, e, i);
      }
      NextNames(http);
      if Distinct(next, e.name, n) {
        ShortWalk(next, e.name, n, Names(http));
      } else {
        var i, j :| 0 <= i < j < n && Walk(next, e.name, i) == Walk(next, e.name, j);
        Repeats(t, http, e.name, i, j);
      }
    }
  }

  /** A name met twice is on a cycle, so its entry is not fine. */
  lemma {:induction false} Repeats(t: Targets, http: seq<Entry>, start: string, i: nat, j: nat)
    requires Valid(http) && i < j && Walk(NextOf(http), start, i).Some? &&
             Walk(NextOf(http), start, i) == Walk(NextOf(http), start, j)
    requires Walk(NextOf(http), start, i).value in Names(http)
    ensures exists f :: f in http && !Problem(t, http, f).Fine?
  {
    hide NextOf, Cut, Returns;
    var next := NextOf(http);
    var x := Walk(next, start, i).value;
    WalkJoins(next, start, i, j - i);
    assert Loops(next, x, j - i);
    InCycleMeansOnCycle(http, x);
    var k :| 0 <= k < |http| && http[k].name == x;
    CycleHasDependency(http, k);
    assert http[k] in http && !Problem(t, http, http[k]).Fine?;
  }

  lemma {:induction false} CycleHasDependency(http: seq<Entry>, k: nat)
    requires Valid(http) && k < |http| && OnCycle(NextOf(http), http[k].name)
    ensures http[k].dependsOn != ""
  {
    hide NextOf, Cut, Valid;
    NextIs(http, http[k]);
    var m :| Loops(NextOf(http), http[k].name, m);
    assert Walk(NextOf(http), http[k].name, 0) == Some(http[k].name);
    WalkPrefix(NextOf(http), http[k].name, 0, m);
  }

  // ---------------------------------------------------------------- rounds

  lemma {:induction false} KeptStaysGrounded(t: Targets, http: seq<Entry>, kept: seq<Entry>, e: Entry, n: nat)
    requires Valid(http) && e in http && Grounds(t, http, e, n)
    requires forall f :: f in http && Problem(t, http, f).Fine? ==> f in kept
    ensures e in kept && Grounds(t, kept, e, n)
    decreases n
  {
    KnownIsConfigured(t);
    hide Cut, KnownElsewhere, Configured, Valid, Problem;
    GroundedIsFine(t, http, e, n);
    if e.dependsOn != "" && Cut(e.dependsOn).0 == HTTP {
      var f :| f in http && f.name == Cut(e.dependsOn).1 && Grounds(t, http, f, n - 1);
      KeptStaysGrounded(t, http, kept, f, n - 1);
    }
  }

  lemma {:induction false} FewerGround(t: Targets, http: seq<Entry>, kept: seq<Entry>, e: Entry, n: nat)
    requires Grounds(t, kept, e, n) && forall f :: f in kept ==> f in http
    ensures Grounds(t, http, e, n)
    decreases n
  {
    KnownIsConfigured(t);
    hide Cut, KnownElsewhere, Configured;
    if e.dependsOn != "" && Cut(e.dependsOn).0 == HTTP {
      var f :| f in kept && f.name == Cut(e.dependsOn).1 && Grounds(t, kept, f, n - 1);
      FewerGround(t, http, kept, f, n - 1);
    }
  }

  /** A round rejects no entry whose chain ends, and makes no other chain end. */
  lemma {:induction false} RoundKeepsGrounded(t: Targets, http: seq<Entry>, e: Entry)
    requires Valid(http)
    ensures var kept := Keep(t, http, http).0;
            (e in kept && Grounded(t, kept, e)) <==> (e in http && Grounded(t, http, e))
  {
    hide Keep, Grounds, Problem, Valid;
    var kept := Keep(t, http, http).0;
    KeepShrinks(t, http, http);
    if e in http && Grounded(t, http, e) {
      var n :| Grounds(t, http, e, n);
      KeptStaysGrounded(t, http, kept, e, n);
    }
    if e in kept && Grounded(t, kept, e) {
      var n :| Grounds(t, kept, e, n);
      FewerGround(t, http, kept, e, n);
    }
  }

  /** The entries of s whose chain ends among `all`, in order. */
  ghost function Ending(t: Targets, all: seq<Entry>, s: seq<Entry>): seq<Entry> {
    if s == [] then []
    else
      var n := |s| - 1;
      Ending(t, all, s[..n]) + if Grounded(t, all, s[n]) then [s[n]] else []
  }

  lemma {:induction false} RoundKeepsEnding(t: Targets, http: seq<Entry>, n: nat)
    requires Valid(http) && n <= |http|
    ensures Ending(t, Keep(t, http, http).0, Keep(t, http, http[..n]).0) == Ending(t, http, http[..n])
  {
    hide Grounded, Problem, Valid;
    if n > 0 {
      RoundKeepsEnding(t, http, n - 1);
      assert http[..n][..n - 1] == http[..n - 1];
      var e, kept := http[n - 1], Keep(t, http, http[..n - 1]).0;
      RoundKeepsGrounded(t, http, e);
      KeepShrinks(t, http, http);
      assert (kept + [e])[..|kept|] == kept;
    }
  }

  lemma {:induction false} AllEnd(t: Targets, http: seq<Entry>, n: nat)
    requires n <= |http| && forall e :: e in http ==> Grounded(t, http, e)
    ensures Ending(t, http, http[..n]) == http[..n]
  {
    hide Grounded;
    if n > 0 {
      AllEnd(t, http, n - 1);
      assert http[..n][..n - 1] == http[..n - 1] && http[..n] == http[..n - 1] + [http[n - 1]];
      assert http[n - 1] in http;
    }
  }

  lemma {:induction false} KeptValid(t: Targets, http: seq<Entry>)
    requires Valid(http)
    ensures Valid(Keep(t, http, http).0)
  {
    hide Problem;
    KeepOrder(t, http, http);
  }

  lemma {:induction false} AllFineGrounded(t: Targets, http: seq<Entry>)
    requires Valid(http) && |Keep(t, http, http).0| == |http|
    ensures forall e :: e in http ==> Grounded(t, http, e)
  {
    hide Problem, Grounds, Keep, Valid;
    KeepShrinks(t, http, http);
    forall e | e in http ensures Grounded(t, http, e) { FineIsGrounded(t, http, e); }
  }

  /** Resolving keeps exactly the entries whose chain of dependencies ends, in
      their order. */
  lemma {:induction false} ResolveKeepsEnding(t: Targets, http: seq<Entry>)
    requires Valid(http)
    ensures Resolve(t, http).0 == Ending(t, http, http)
    decreases |http|
  {
    hide Keep, Valid, Grounded, Ending, Resolve;
    var kept := Keep(t, http, http).0;
    ResolveStep(t, http);
    assert http[..|http|] == http;
    if |kept| == |http| {
      AllFineGrounded(t, http);
      AllEnd(t, http, |http|);
    } else {
      KeptValid(t, http);
      ResolveKeepsEnding(t, kept);
      RoundKeepsEnding(t, http, |http|);
    }
  }

  /** As many are reported as are rejected, and none whose chain ends. */
  lemma {:induction false} RejectedAreReported(t: Targets, http: seq<Entry>)
    requires Valid(http)
    ensures |Resolve(t, http).0| + |Resolve(t, http).1| == |http|
    ensures forall r :: r in Resolve(t, http).1 ==>
              !r.reason.Fine? && exists e :: e in http && e.name == r.name && !Grounded(t, http, e)
    decreases |http|
  {
    hide Keep, Valid, Grounded, Resolve, Problem;
    var (kept, reports) := Keep(t, http, http);
    ResolveStep(t, http);
    KeepShrinks(t, http, http);
    if |kept| < |http| {
      KeptValid(t, http);
      RejectedAreReported(t, kept);
      forall r | r in Resolve(t, http).1
        ensures !r.reason.Fine? && exists e :: e in http && e.name == r.name && !Grounded(t, http, e)
      {
        if r in reports {
          ReportedIsBad(t, http, http, r);
          var e :| e in http && e.name == r.name && Problem(t, http, e) == r.reason;
          BadNotGrounded(t, http, e);
        } else {
          var e :| e in kept && e.name == r.name && !Grounded(t, kept, e);
          RoundKeepsGrounded(t, http, e);
        }
      }
    }
  }

  lemma {:induction false} BadNotGrounded(t: Targets, http: seq<Entry>, e: Entry)
    requires Valid(http) && e in http && !Problem(t, http, e).Fine?
    ensures !Grounded(t, http, e)
  {
    hide Valid, Problem, Grounds;
    if Grounded(t, http, e) {
      var n :| Grounds(t, http, e, n);
      GroundedIsFine(t, http, e, n);
    }
  }

  lemma {:induction false} ReportedIsBad(t: Targets, all: seq<Entry>, http: seq<Entry>, r: Report)
    requires r in Keep(t, all, http).1
    ensures !r.reason.Fine? && exists e :: e in http && e.name == r.name && Problem(t, all, e) == r.reason
  {
    hide Problem;
    var n := |http| - 1;
    assert http == http[..n] + [http[n]];
    if r in Keep(t, all, http[..n]).1 {
      ReportedIsBad(t, all, http[..n], r);
    } else {
      assert http[n] in http && http[n].name == r.name;
    }
  }

  // ---------------------------------------------------------------- reasons

  ghost predicate NamesSomething(t: Targets, http: seq<Entry>, kind: string, name: string) {
    if kind == "http" then exists i :: 0 <= i < |http| && http[i].name == name else Configured(t, kind, name)
  }

  /** Why an entry is rejected: it names itself; or nothing configured; or, naming
      something configured, its chain leads back to it. */
  lemma {:induction false} ReasonIs(t: Targets, http: seq<Entry>, e: Entry)
    ensures var (kind, name) := Cut(e.dependsOn);
            Problem(t, http, e) ==
            if e.dependsOn == "" then Fine
            else if e.dependsOn == "http/" + e.name then Itself
            else if !NamesSomething(t, http, kind, name) then Unknown
            else if OnCycle(NextOf(http), e.name) then Cycle
            else Fine
  {
    KnownIsConfigured(t);
    hide NextOf, Cut, KnownElsewhere, Configured, Returns, OnCycle;
    InCycleMeansOnCycle(http, e.name);
    var (kind, name) := Cut(e.dependsOn);
    assert KnownElsewhere(t, kind, name) <==> Configured(t, kind, name);
    assert name in Names(http) <==> exists i :: 0 <= i < |http| && http[i].name == name;
  }

  /** Each report gives the reason of an entry of its name, as it stood in some round. */
  ghost predicate ReportedSo(t: Targets, http: seq<Entry>, round: seq<Entry>, r: Report) {
    && (forall e :: e in round ==> e in http)
    && exists e :: e in round && e.name == r.name && Problem(t, round, e) == r.reason
  }

  /** Every report gives the reason its entry was rejected for, among the entries left
      in that round. */
  lemma {:induction false} ReportsSay(t: Targets, http: seq<Entry>)
    requires Valid(http)
    ensures forall r :: r in Resolve(t, http).1 ==> exists round :: ReportedSo(t, http, round, r)
    decreases |http|
  {
    hide Keep, Valid, Resolve, Problem;
    var (kept, reports) := Keep(t, http, http);
    ResolveStep(t, http);
    KeepShrinks(t, http, http);
    if |kept| < |http| {
      KeptValid(t, http);
      ReportsSay(t, kept);
      forall r | r in Resolve(t, http).1 ensures exists round :: ReportedSo(t, http, round, r) {
        if r in reports {
          ReportedIsBad(t, http, http, r);
          assert ReportedSo(t, http, http, r);
        } else {
          var round :| ReportedSo(t, kept, round, r);
          assert ReportedSo(t, http, round, r);
        }
      }
    }
  }
}
