/** Which services the memory guard may touch. Never-touch entries are matched by
    a function given with the configuration, as their glob syntax is a library's. */
module Services {
  import opened Episode

  datatype Policy = Policy(neverTouch: seq<string>, self: string, matches: (string, string) -> bool)

  function TrimLeft(s: string): string {
    if s != [] && s[0] == '/' then TrimLeft(s[1..]) else s
  }

  function TrimRight(s: string): string {
    if s != [] && s[|s| - 1] == '/' then TrimRight(s[..|s| - 1]) else s
  }

  function Trim(s: string): string { TrimRight(TrimLeft(s)) }

  predicate HasSuffix(s: string, suffix: string) {
    |s| >= |suffix| && s[|s| - |suffix|..] == suffix
  }

  /** The element after the last slash. */
  function Base(s: string): (b: string)
    ensures '/' !in b && |b| <= |s| && s[|s| - |b|..] == b
    ensures |b| < |s| ==> s[|s| - |b| - 1] == '/'
  {
    if s == [] || s[|s| - 1] == '/' then []
    else
      var b := Base(s[..|s| - 1]);
      assert s[..|s| - 1][|s| - 1 - |b|..] == b;
      assert s[|s| - 1 - |b|..] == b + [s[|s| - 1]];
      b + [s[|s| - 1]]
  }

  const SYSTEM_SLICE := "system.slice/"

  predicate IsServiceCgroup(p: string) {
    && SYSTEM_SLICE <= p
    && (HasSuffix(Base(p[|SYSTEM_SLICE|..]), ".service") || HasSuffix(Base(p[|SYSTEM_SLICE|..]), ".scope"))
  }

  /** The cgroup is tgshd's own or holds it. */
  predicate HoldsSelf(policy: Policy, p: string) {
    var self := Trim(policy.self);
    self != "" && p <= self && (|self| == |p| || self[|p|] == '/')
  }

  predicate IsCoreUnit(name: string) {
    name in {"docker.service", "containerd.service", "dbus.service", "ssh.service", "sshd.service"}
    || "systemd-" <= name
  }

  predicate NeverTouch(policy: Policy, kind: Kind, name: string) {
    exists i :: 0 <= i < |policy.neverTouch| &&
      (policy.matches(policy.neverTouch[i], name) ||
       (kind == Unit && HasSuffix(name, ".service") && policy.matches(policy.neverTouch[i], name[..|name| - 8])))
  }

  function IdOf(kind: Kind, name: string): string {
    (if kind == Container then "container:" else "unit:") + name
  }

  /** Config.Service: the service of a cgroup, judged. */
  function Judge(policy: Policy, kind: Kind, name: string, cgroup: string): Service {
    var p := Trim(cgroup);
    var open := IsServiceCgroup(p) && !HoldsSelf(policy, p) && !(kind == Unit && IsCoreUnit(name));
    var protected := open && NeverTouch(policy, kind, name);
    Service(IdOf(kind, name), kind, name, cgroup, open && !protected, protected)
  }

  /** IDs tell services apart. */
  lemma {:induction false} IdsDiffer(k1: Kind, n1: string, k2: Kind, n2: string)
    requires IdOf(k1, n1) == IdOf(k2, n2)
    ensures k1 == k2 && n1 == n2
  {
    assert IdOf(k1, n1)[0] == if k1 == Container then 'c' else 'u';
    assert IdOf(k2, n2)[0] == if k2 == Container then 'c' else 'u';
    var skip := if k1 == Container then 10 else 5;
    assert IdOf(k1, n1)[skip..] == n1 && IdOf(k2, n2)[skip..] == n2;
  }

  lemma {:induction false} SuffixesClash(p: string, a: string, b: string, i: nat)
    requires HasSuffix(p, a) && 1 <= i && i <= |a| && i <= |b| && a[|a| - i] != b[|b| - i]
    ensures !HasSuffix(p, b)
  {
    assert p[|p| - |a|..][|a| - i] == p[|p| - i];
  }

  lemma {:induction false} SuffixOfSuffix(p: string, b: string, suffix: string)
    requires HasSuffix(p, b) && HasSuffix(b, suffix)
    ensures HasSuffix(p, suffix)
  {
    assert p[|p| - |suffix|..] == b[|b| - |suffix|..];
  }

  lemma {:induction false} BaseIsSuffix(p: string, skip: nat)
    requires skip <= |p|
    ensures HasSuffix(p, Base(p[skip..]))
  {
  }

  /** A cgroup judged a service is under system.slice and is no slice itself. */
  lemma {:induction false} ServiceIsNoSlice(p: string)
    requires IsServiceCgroup(p)
    ensures SYSTEM_SLICE <= p && !HasSuffix(p, ".slice")
  {
    hide HasSuffix, Base;
    var b := Base(p[|SYSTEM_SLICE|..]);
    BaseIsSuffix(p, |SYSTEM_SLICE|);
    if HasSuffix(b, ".service") {
      SuffixOfSuffix(p, b, ".service");
      SuffixesClash(p, ".service", ".slice", 4);
    } else {
      SuffixOfSuffix(p, b, ".scope");
      SuffixesClash(p, ".scope", ".slice", 2);
    }
  }

  // ---------------------------------------------------------------- what is eligible

  predicate AllSlashes(s: string) { forall i :: 0 <= i < |s| ==> s[i] == '/' }

  lemma {:induction false} TrimLeftMeans(s: string)
    ensures exists a :: AllSlashes(a) && s == a + TrimLeft(s)
    ensures TrimLeft(s) != [] ==> TrimLeft(s)[0] != '/'
  {
    if s != [] && s[0] == '/' {
      TrimLeftMeans(s[1..]);
      var a :| AllSlashes(a) && s[1..] == a + TrimLeft(s);
      assert s == ("/" + a) + TrimLeft(s) && AllSlashes("/" + a);
    } else {
      assert AllSlashes("") && s == "" + TrimLeft(s);
    }
  }

  lemma {:induction false} TrimRightMeans(s: string)
    ensures exists b :: AllSlashes(b) && s == TrimRight(s) + b
    ensures TrimRight(s) != [] ==> TrimRight(s)[|TrimRight(s)| - 1] != '/' && TrimRight(s)[0] == s[0]
  {
    if s != [] && s[|s| - 1] == '/' {
      var front := s[..|s| - 1];
      TrimRightMeans(front);
      var b :| AllSlashes(b) && front == TrimRight(s) + b;
      assert s == TrimRight(s) + (b + "/") && AllSlashes(b + "/");
    } else {
      assert AllSlashes("") && s == TrimRight(s) + "";
    }
  }

  /** Trimming takes away slashes at both ends, and all of them. */
  lemma {:induction false} TrimMeans(s: string)
    ensures exists a, b :: AllSlashes(a) && AllSlashes(b) && s == a + Trim(s) + b
    ensures Trim(s) != [] ==> Trim(s)[0] != '/' && Trim(s)[|Trim(s)| - 1] != '/'
  {
    TrimLeftMeans(s);
    TrimRightMeans(TrimLeft(s));
    var a :| AllSlashes(a) && s == a + TrimLeft(s);
    var b :| AllSlashes(b) && TrimLeft(s) == Trim(s) + b;
    assert s == a + Trim(s) + b;
  }

  /** A path below system.slice whose last element is a service or a scope. */
  ghost predicate BelowSystemSlice(p: string, dirs: string, last: string) {
    && p == "system.slice/" + dirs + last && (dirs == "" || dirs[|dirs| - 1] == '/') && '/' !in last
    && (HasSuffix(last, ".service") || HasSuffix(last, ".scope"))
  }

  lemma {:induction false} BaseIs(dirs: string, last: string)
    requires (dirs == "" || dirs[|dirs| - 1] == '/') && '/' !in last
    ensures Base(dirs + last) == last
  {
    if last == "" {
      assert dirs + last == dirs;
    } else {
      var n := |last| - 1;
      assert (dirs + last)[..|dirs| + n] == dirs + last[..n];
      BaseIs(dirs, last[..n]);
    }
  }

  lemma {:induction false} ServiceCgroupMeans(p: string)
    ensures IsServiceCgroup(p) <==> exists dirs, last :: BelowSystemSlice(p, dirs, last)
  {
    hide IsServiceCgroup, BelowSystemSlice;
    if IsServiceCgroup(p) { var dirs, last := ServiceBelow(p); }
    forall dirs, last | BelowSystemSlice(p, dirs, last) ensures IsServiceCgroup(p) { BelowIsService(p, dirs, last); }
  }

  lemma {:induction false} ServiceBelow(p: string) returns (dirs: string, last: string)
    requires IsServiceCgroup(p)
    ensures BelowSystemSlice(p, dirs, last)
  {
    hide Base, HasSuffix;
    var rest := p[|SYSTEM_SLICE|..];
    last := Base(rest);
    dirs := rest[..|rest| - |last|];
    assert rest == dirs + last;
    assert p == SYSTEM_SLICE + (dirs + last) == SYSTEM_SLICE + dirs + last;
  }

  lemma {:induction false} BelowIsService(p: string, dirs: string, last: string)
    requires BelowSystemSlice(p, dirs, last)
    ensures IsServiceCgroup(p)
  {
    hide Base, HasSuffix;
    assert p == SYSTEM_SLICE + (dirs + last);
    assert p[|SYSTEM_SLICE|..] == dirs + last;
    BaseIs(dirs, last);
  }

  /** tgshd's own cgroup is this one or lies below it. */
  ghost predicate SelfWithin(policy: Policy, p: string, rest: string) {
    Trim(policy.self) != "" && Trim(policy.self) == p + rest && (rest == "" || rest[0] == '/')
  }

  /** A never_touch entry names the service, a unit also without its suffix. */
  ghost predicate ExcludedBy(policy: Policy, kind: Kind, name: string, entry: string, short: string) {
    && entry in policy.neverTouch
    && (policy.matches(entry, name) || (kind == Unit && name == short + ".service" && policy.matches(entry, short)))
  }

  ghost predicate Excluded(policy: Policy, kind: Kind, name: string) {
    exists entry, short :: ExcludedBy(policy, kind, name, entry, short)
  }

  lemma {:induction false} NeverTouchMeans(policy: Policy, kind: Kind, name: string)
    ensures NeverTouch(policy, kind, name) <==> Excluded(policy, kind, name)
  {
    var cut := if HasSuffix(name, ".service") then name[..|name| - 8] else "";
    if HasSuffix(name, ".service") { assert name == cut + ".service"; }
    if NeverTouch(policy, kind, name) {
      var i :| 0 <= i < |policy.neverTouch| &&
        (policy.matches(policy.neverTouch[i], name) ||
         (kind == Unit && HasSuffix(name, ".service") && policy.matches(policy.neverTouch[i], name[..|name| - 8])));
      assert ExcludedBy(policy, kind, name, policy.neverTouch[i], cut);
    }
    if entry, short :| ExcludedBy(policy, kind, name, entry, short) {
      var i :| 0 <= i < |policy.neverTouch| && policy.neverTouch[i] == entry;
      assert name == short + ".service" ==> HasSuffix(name, ".service") && name[..|name| - 8] == short;
    }
  }

  /** What the guard could touch, were it not excluded. */
  ghost predicate Touchable(policy: Policy, kind: Kind, name: string, p: string) {
    && (exists dirs, last :: BelowSystemSlice(p, dirs, last))
    && (forall rest :: !SelfWithin(policy, p, rest))
    && !(kind == Unit &&
         (name in {"docker.service", "containerd.service", "dbus.service", "ssh.service", "sshd.service"}
          || "systemd-" <= name))
  }

  /** A service is eligible exactly when its cgroup, slashes at the ends aside, is a
      service or scope below system.slice that is not and does not hold tgshd's own,
      it is no core unit, and it is not excluded; it is protected exactly when that
      last is all that is missing. */
  lemma {:induction false} JudgedExactly(policy: Policy, kind: Kind, name: string, cgroup: string)
    ensures var s := Judge(policy, kind, name, cgroup);
            && (s.eligible <==> Touchable(policy, kind, name, Trim(cgroup)) && !Excluded(policy, kind, name))
            && (s.protected <==> Touchable(policy, kind, name, Trim(cgroup)) && Excluded(policy, kind, name))
            && s.kind == kind && s.name == name && s.cgroup == cgroup && s.id == IdOf(kind, name)
  {
    hide IsServiceCgroup, BelowSystemSlice, NeverTouch, Excluded, Trim;
    var p := Trim(cgroup);
    ServiceCgroupMeans(p);
    NeverTouchMeans(policy, kind, name);
    var self := Trim(policy.self);
    if HoldsSelf(policy, p) { assert SelfWithin(policy, p, self[|p|..]); }
    forall rest | SelfWithin(policy, p, rest) ensures HoldsSelf(policy, p) {
      if rest != "" { assert self[|p|] == rest[0]; }
    }
  }

  // ---------------------------------------------------------------- order of IDs

  /** Byte order of strings. */
  predicate Less(a: string, b: string) {
    if b == [] then false
    else if a == [] then true
    else if a[0] != b[0] then a[0] < b[0]
    else Less(a[1..], b[1..])
  }

  /** A proper prefix comes first; otherwise the first character that differs
      decides. */
  lemma {:induction false} LessMeans(a: string, b: string)
    ensures Less(a, b) <==> (a <= b && a != b) || exists n :: FirstLess(a, b, n)
  {
    if a != [] && b != [] && a[0] == b[0] {
      LessMeans(a[1..], b[1..]);
      assert a == [a[0]] + a[1..] && b == [b[0]] + b[1..];
      forall n: nat ensures FirstLess(a[1..], b[1..], n) <==> FirstLess(a, b, 1 + n) {
        assert n < |a| && n < |b| ==> a[..1 + n] == [a[0]] + a[1..][..n] && b[..1 + n] == [b[0]] + b[1..][..n];
      }
      if n: nat :| FirstLess(a, b, n) { assert FirstLess(a[1..], b[1..], n - 1); }
    } else if a != [] && b != [] {
      if a[0] < b[0] { assert FirstLess(a, b, 0); }
    }
  }

  /** The strings agree up to n, where a has the lower character. */
  predicate FirstLess(a: string, b: string, n: int) {
    0 <= n < |a| && n < |b| && a[..n] == b[..n] && a[n] < b[n]
  }

  lemma {:induction false} LessTotal(a: string, b: string)
    ensures !(Less(a, b) && Less(b, a)) && (a != b ==> Less(a, b) || Less(b, a))
  {
    if a != [] && b != [] && a[0] == b[0] {
      LessTotal(a[1..], b[1..]);
      assert a == [a[0]] + a[1..] && b == [b[0]] + b[1..];
    }
  }

  lemma {:induction false} LessTransitive(a: string, b: string, c: string)
    requires Less(a, b) && Less(b, c)
    ensures Less(a, c)
  {
    if a != [] && c != [] && a[0] == b[0] == c[0] { LessTransitive(a[1..], b[1..], c[1..]); }
  }
}
