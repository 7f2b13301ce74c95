/** Which http entries' depends_on can be used. An entry is kept exactly when its
    chain of dependencies ends. */
module Depends {
  import opened Basics

  datatype Entry = Entry(name: string, dependsOn: string)

  /** The other checks a dependency may name. */
  datatype Targets = Targets(
    freshness: set<string>, command: set<string>, network: bool, modemProbe: bool, ups: bool, kernel: bool,
    containers: bool)

  const HTTP := "http"

  // ---------------------------------------------------------------- kind/name

  /** The text before and after the first slash; all of it and nothing without one. */
  function Cut(s: string): (string, string) {
    if s == [] then ([], [])
    else if s[0] == '/' then ([], s[1..])
    else
      var (before, rest) := Cut(s[1..]);
      ([s[0]] + before, rest)
  }

  function CutPrefix(s: string, prefix: string): Option<string> {
    if |prefix| <= |s| && s[..|prefix|] == prefix then Some(s[|prefix|..]) else None
  }

  lemma {:induction false} CutJoins(s: string)
    ensures '/' !in Cut(s).0
    ensures '/' in s ==> s == Cut(s).0 + ['/'] + Cut(s).1
  {
    if s != [] && s[0] != '/' {
      CutJoins(s[1..]);
      assert s == [s[0]] + s[1..];
    } else if s != [] {
      assert s == [] + ['/'] + s[1..];
    }
  }

  lemma {:induction false} CutAt(before: string, rest: string)
    requires '/' !in before
    ensures Cut(before + ['/'] + rest) == (before, rest)
  {
    var s := before + ['/'] + rest;
    if before != [] {
      assert s[1..] == before[1..] + ['/'] + rest;
      CutAt(before[1..], rest);
      assert before == [before[0]] + before[1..];
    } else {
      assert s[1..] == rest;
    }
  }

  /** With a slash, the prefix http/ and the kind http are the same thing. */
  lemma {:induction false} PrefixIsKind(s: string)
    requires '/' in s
    ensures CutPrefix(s, HTTP + "/") == if Cut(s).0 == HTTP then Some(Cut(s).1) else None
  {
    CutJoins(s);
    var p := CutPrefix(s, HTTP + "/");
    if p.Some? {
      assert s == HTTP + ['/'] + p.value;
      CutAt(HTTP, p.value);
    }
    if Cut(s).0 == HTTP {
      assert s[..5] == HTTP + "/" && s[5..] == Cut(s).1;
    }
  }

  // ---------------------------------------------------------------- one entry

  function Names(http: seq<Entry>): set<string> { set i | 0 <= i < |http| :: http[i].name }

  predicate KnownElsewhere(t: Targets, kind: string, name: string) {
    || (kind == "freshness" && name in t.freshness)
    || (kind == "command" && name in t.command)
    || (kind == "network" && t.network && name in ["connectivity", "router", "internet"])
    || (kind == "modem_probe" && t.modemProbe && name == "roundtrip")
    || (kind == "ups" && t.ups) || (kind == "kernel" && t.kernel) || (kind == "containers" && t.containers)
  }

  predicate Known(t: Targets, http: seq<Entry>, kind: string, name: string) {
    if kind == HTTP then name in Names(http) else KnownElsewhere(t, kind, name)
  }

  /** The http entry each entry depends on, by name; later entries win. */
  function NextOf(http: seq<Entry>): map<string, string> {
    if http == [] then map[]
    else
      var n := |http| - 1;
      var target := CutPrefix(http[n].dependsOn, HTTP + "/");
      if target.Some? then NextOf(http[..n])[http[n].name := target.value] else NextOf(http[..n])
  }

  /** What inCycle answers with `rounds` rounds left. */
  function Returns(next: map<string, string>, start: string, cur: string, rounds: nat): bool
    decreases rounds
  {
    if rounds == 0 || cur !in next then false
    else next[cur] == start || Returns(next, start, next[cur], rounds - 1)
  }

  datatype Reason = Fine | Itself | Unknown | Cycle

  function Problem(t: Targets, http: seq<Entry>, e: Entry): Reason {
    if e.dependsOn == "" then Fine
    else if e.dependsOn == HTTP + "/" + e.name then Itself
    else
      var (kind, name) := Cut(e.dependsOn);
      if !Known(t, http, kind, name) then Unknown
      else if Returns(NextOf(http), e.name, e.name, |http|) then Cycle
      else Fine
  }

  // ---------------------------------------------------------------- all entries

  datatype Report = Report(name: string, reason: Reason)

  /** Those of `http` that have no problem among `all`, and why the others do. */
  function Keep(t: Targets, all: seq<Entry>, http: seq<Entry>): (seq<Entry>, seq<Report>) {
    if http == [] then ([], [])
    else
      var n := |http| - 1;
      var (kept, reports) := Keep(t, all, http[..n]);
      var reason := Problem(t, all, http[n]);
      if reason.Fine? then (kept + [http[n]], reports) else (kept, reports + [Report(http[n].name, reason)])
  }

  lemma {:induction false} KeepShrinks(t: Targets, all: seq<Entry>, http: seq<Entry>)
    ensures |Keep(t, all, http).0| + |Keep(t, all, http).1| == |http|
    ensures |Keep(t, all, http).0| == |http| ==> Keep(t, all, http).0 == http
    ensures forall e :: e in Keep(t, all, http).0 <==> e in http && Problem(t, all, e).Fine?
  {
    hide Problem;
    if http != [] {
      KeepShrinks(t, all, http[..|http| - 1]);
      assert http == http[..|http| - 1] + [http[|http| - 1]];
    }
  }

  function Resolve(t: Targets, http: seq<Entry>): (seq<Entry>, seq<Report>)
    decreases |http|
  {
    var (kept, reports) := Keep(t, http, http);
    KeepShrinks(t, http, http);
    if |kept| == |http| then (http, [])
    else
      var (rest, more) := Resolve(t, kept);
      (rest, reports + more)
  }

  // ---------------------------------------------------------------- the object

  method InCycle(http: seq<Entry>, start: string) returns (r: bool)
    ensures r == Returns(NextOf(http), start, start, |http|)
  {
    var next: map<string, string> := map[];
    for i := 0 to |http|
      invariant next == NextOf(http[..i])
    {
      assert http[..i + 1][..i] == http[..i];
      var target := CutPrefix(http[i].dependsOn, HTTP + "/");
      if target.Some? { next := next[http[i].name := target.value]; }
    }
    assert http[..|http|] == http;
    var cur := start;
    for i := 0 to |http|
      invariant Returns(next, start, start, |http|) == Returns(next, start, cur, |http| - i)
    {
      if cur !in next { return false; }
      if next[cur] == start { return true; }
      cur := next[cur];
    }
    r := false;
  }

  method DependsOnProblem(t: Targets, http: seq<Entry>, e: Entry) returns (r: Reason)
    ensures r == Problem(t, http, e)
  {
    if e.dependsOn == "" { return Fine; }
    if e.dependsOn == HTTP + "/" + e.name { return Itself; }
    var (kind, name) := Cut(e.dependsOn);
    if !Known(t, http, kind, name) { return Unknown; }
    var cycle := InCycle(http, e.name);
    r := if cycle then Cycle else Fine;
  }

  ghost predicate OwnNames(http: seq<Entry>) {
    forall i, j :: 0 <= i < j < |http| ==> http[i].name != http[j].name
  }

  class Config {
    const targets: Targets
    var http: seq<Entry>
    var reports: seq<Report>

    constructor (targets: Targets, http: seq<Entry>)
      ensures this.targets == targets && this.http == http && reports == []
    {
      this.targets, this.http, reports := targets, http, [];
    }

    /** Each round finds the bad entries by name, then deletes them. */
    method ResolveDependsOn()
      requires OwnNames(http)
      modifies this
      ensures http == Resolve(targets, old(http)).0
      ensures reports == old(reports) + Resolve(targets, old(http)).1
    {
      hide Resolve, Keep, OwnNames;
      ghost var all := Resolve(targets, http);
      while true
        invariant OwnNames(http)
        invariant Resolve(targets, http).0 == all.0
        invariant reports + Resolve(targets, http).1 == old(reports) + all.1
        decreases |http|
      {
        ResolveStep(targets, http);
        var done, kept, more := Round(targets, http);
        if done { return; }
        http, reports := kept, reports + more;
      }
    }
  }

  method Round(t: Targets, http: seq<Entry>) returns (done: bool, kept: seq<Entry>, more: seq<Report>)
    requires OwnNames(http)
    ensures (kept, more) == Keep(t, http, http) && OwnNames(kept)
    ensures done == (|kept| == |http|)
    ensures !done ==> |kept| < |http|
  {
    hide Keep, OwnNames, Bad, Problem;
    var bad := FindBad(t, http);
    done := bad == map[];
    if done { NoneBad(t, http, bad); } else { SomeBad(t, http, bad); }
    kept, more := Delete(t, http, bad);
    OwnKept(t, http);
  }

  /** The names with a problem, and which. */
  ghost predicate Bad(t: Targets, all: seq<Entry>, n: nat, bad: map<string, Reason>)
    requires n <= |all|
  {
    && (forall i :: 0 <= i < n ==>
          if Problem(t, all, all[i]).Fine? then all[i].name !in bad
          else all[i].name in bad && bad[all[i].name] == Problem(t, all, all[i]))
    && (forall name :: name in bad ==> exists i :: 0 <= i < n && all[i].name == name)
  }

  method FindBad(t: Targets, all: seq<Entry>) returns (bad: map<string, Reason>)
    requires OwnNames(all)
    ensures Bad(t, all, |all|, bad)
  {
    hide Problem;
    bad := map[];
    for i := 0 to |all|
      invariant Bad(t, all, i, bad)
    {
      var reason := DependsOnProblem(t, all, all[i]);
      if !reason.Fine? { bad := bad[all[i].name := reason]; }
    }
  }

  method Delete(t: Targets, all: seq<Entry>, bad: map<string, Reason>) returns (kept: seq<Entry>, reports: seq<Report>)
    requires OwnNames(all) && Bad(t, all, |all|, bad)
    ensures (kept, reports) == Keep(t, all, all)
  {
    hide Problem;
    kept, reports := [], [];
    for i := 0 to |all|
      invariant (kept, reports) == Keep(t, all, all[..i])
    {
      assert all[..i + 1][..i] == all[..i];
      if all[i].name in bad {
        reports := reports + [Report(all[i].name, bad[all[i].name])];
      } else {
        kept := kept + [all[i]];
      }
    }
    assert all[..|all|] == all;
  }

  lemma {:induction false} ResolveStep(t: Targets, http: seq<Entry>)
    ensures var (kept, reports) := Keep(t, http, http);
            && |kept| <= |http|
            && if |kept| == |http| then Resolve(t, http) == (http, [])
               else Resolve(t, http) == (Resolve(t, kept).0, reports + Resolve(t, kept).1)
  {
    KeepShrinks(t, http, http);
  }

  lemma {:induction false} NoneBad(t: Targets, all: seq<Entry>, bad: map<string, Reason>)
    requires Bad(t, all, |all|, bad) && bad == map[]
    ensures |Keep(t, all, all).0| == |all|
  {
    hide Problem;
    AllKept(t, all, |all|);
    assert all[..|all|] == all;
  }

  lemma {:induction false} AllKept(t: Targets, all: seq<Entry>, n: nat)
    requires n <= |all| && forall i :: 0 <= i < n ==> Problem(t, all, all[i]).Fine?
    ensures |Keep(t, all, all[..n]).0| == n
  {
    hide Problem;
    if n > 0 {
      AllKept(t, all, n - 1);
      assert all[..n][..n - 1] == all[..n - 1];
    }
  }

  lemma {:induction false} SomeBad(t: Targets, all: seq<Entry>, bad: map<string, Reason>)
    requires Bad(t, all, |all|, bad) && bad != map[]
    ensures |Keep(t, all, all).0| < |all|
  {
    hide Problem;
    KeepShrinks(t, all, all);
    assert exists name :: name in bad by { assert |bad| > 0; assert bad.Keys != {}; }
    var name :| name in bad;
    var i :| 0 <= i < |all| && all[i].name == name;
    assert all[i] in all;
  }

  lemma {:induction false} KeepOrder(t: Targets, all: seq<Entry>, http: seq<Entry>)
    requires OwnNames(http)
    ensures OwnNames(Keep(t, all, http).0)
    ensures forall e :: e in Keep(t, all, http).0 ==> e in http
  {
    hide Problem, OwnNames;
    KeepShrinks(t, all, http);
    if http == [] {
      NoNames();
    } else {
      var n := |http| - 1;
      FewerNames(http);
      KeepOrder(t, all, http[..n]);
      OneMoreName(http, Keep(t, all, http[..n]).0);
    }
  }

  lemma {:induction false} NoNames()
    ensures OwnNames([])
  {
  }

  lemma {:induction false} FewerNames(http: seq<Entry>)
    requires OwnNames(http) && http != []
    ensures OwnNames(http[..|http| - 1])
  {
  }

  lemma {:induction false} OneMoreName(http: seq<Entry>, kept: seq<Entry>)
    requires OwnNames(http) && http != [] && OwnNames(kept) && forall e :: e in kept ==> e in http[..|http| - 1]
    ensures OwnNames(kept + [http[|http| - 1]])
  {
    var n := |http| - 1;
    forall i | 0 <= i < |kept| ensures kept[i].name != http[n].name {
      assert kept[i] in kept;
      var j :| 0 <= j < n && http[..n][j] == kept[i];
      assert http[j].name != http[n].name;
    }
  }

  lemma {:induction false} OwnKept(t: Targets, all: seq<Entry>)
    requires OwnNames(all)
    ensures OwnNames(Keep(t, all, all).0)
  {
    KeepOrder(t, all, all);
  }
}
