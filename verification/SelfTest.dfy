/** Reading a drive's self-test log against what was seen of it last time. */
module SelfTest {
  import opened Basics

  datatype Id = Id(hours: int, kind: int, code: int)

  datatype Outcome = Passed | Failed | Unfinished

  datatype Entry = Entry(id: Id, description: string, outcome: Outcome, hasHours: bool, wraps: bool)
  {
    predicate Finished() { outcome.Passed? || outcome.Failed? }
  }

  datatype State = State(head: seq<Id>, seen: bool, okAt: int)

  datatype Newest = Newest(outcome: Outcome, description: string, hours: int)

  datatype Update = Update(failures: seq<Entry>, head: seq<Id>, seen: bool, okAt: int, newest: Option<Newest>)

  const HEAD_SIZE: nat := 5
  const WRAP: int := 0x10000

  function Min(a: int, b: int): int { if a <= b then a else b }

  // ---------------------------------------------------------------- aligning

  /** The head matches at i: as many of its ids as the rest of the log has. */
  predicate MatchAt(head: seq<Id>, log: seq<Entry>, i: nat) {
    i < |log| && forall k :: 0 <= k < Min(|head|, |log| - i) ==> log[i + k].id == head[k]
  }

  function AlignedFrom(head: seq<Id>, log: seq<Entry>, i: nat): (r: Option<nat>)
    ensures r.Some? ==> i <= r.value < |log| && MatchAt(head, log, r.value)
    ensures forall j :: i <= j < (if r.Some? then r.value else |log|) ==> !MatchAt(head, log, j)
    decreases |log| - i
  {
    if i >= |log| then None
    else if MatchAt(head, log, i) then Some(i)
    else AlignedFrom(head, log, i + 1)
  }

  /** The remainder of truncated division. */
  function Rem(a: int, m: int): int
    requires m > 0
  {
    if a >= 0 then a % m else -((-a) % m)
  }

  predicate NewerThan(e: Entry, hours: int) {
    if !e.wraps then e.id.hours > hours
    else
      var d := Rem(e.id.hours - hours, WRAP);
      var forward := if d < 0 then d + WRAP else d;
      forward != 0 && forward < WRAP / 2
  }

  predicate RunsAfter(e: Entry, hours: int) { e.hasHours && NewerThan(e, hours) }

  /** How many leading entries ran after the given hours, from n on. */
  function Run(log: seq<Entry>, hours: int, n: nat): (r: nat)
    requires n <= |log|
    ensures n <= r <= |log|
    ensures forall i :: n <= i < r ==> RunsAfter(log[i], hours)
    ensures r < |log| ==> !RunsAfter(log[r], hours)
    decreases |log| - n
  {
    if n < |log| && RunsAfter(log[n], hours) then Run(log, hours, n + 1) else n
  }

  function NewCount(head: seq<Id>, log: seq<Entry>): (n: nat)
    requires head != []
    ensures n <= |log|
  {
    var at := AlignedFrom(head, log, 0);
    if at.Some? then at.value else Run(log, head[0].hours, 0)
  }

  function LogHead(log: seq<Entry>): seq<Id> {
    seq(Min(|log|, HEAD_SIZE), i requires 0 <= i < |log| => log[i].id)
  }

  function NewestFinished(log: seq<Entry>, i: nat): (r: Option<nat>)
    ensures r.Some? ==> i <= r.value < |log| && log[r.value].Finished()
    ensures forall j :: i <= j < (if r.Some? then r.value else |log|) ==> !log[j].Finished()
    decreases |log| - i
  {
    if i >= |log| then None else if log[i].Finished() then Some(i) else NewestFinished(log, i + 1)
  }

  /** How many of the log's entries are new to the stored state. */
  function New(prev: State, log: seq<Entry>): (n: nat)
    ensures n <= |log|
  {
    if log == [] then 0
    else if prev.head != [] then NewCount(prev.head, log)
    else if !prev.seen then 0
    else |log|
  }

  /** The positions below n of failed entries other than the newest finished. */
  function FailedAt(log: seq<Entry>, n: nat, newest: Option<nat>): (r: seq<nat>)
    requires n <= |log|
    ensures forall i: nat :: i in r <==> i < n && log[i].outcome.Failed? && newest != Some(i)
    ensures forall i, j :: 0 <= i < j < |r| ==> r[i] < r[j]
  {
    if n == 0 then []
    else
      var r := FailedAt(log, n - 1, newest);
      assert forall j :: 0 <= j < |r| ==> r[j] in r;
      if log[n - 1].outcome.Failed? && newest != Some(n - 1) then r + [n - 1] else r
  }

  predicate PassedBelow(log: seq<Entry>, n: nat)
    requires n <= |log|
  {
    exists i :: 0 <= i < n && log[i].outcome.Passed?
  }

  function Entries(log: seq<Entry>, at: seq<nat>): seq<Entry>
    requires forall i :: 0 <= i < |at| ==> at[i] < |log|
  {
    seq(|at|, i requires 0 <= i < |at| => log[at[i]])
  }

  function Summary(log: seq<Entry>): Option<Newest> {
    var i := NewestFinished(log, 0);
    if i.None? then None
    else
      var e := log[i.value];
      Some(Newest(e.outcome, e.description, if e.hasHours then e.id.hours else 0))
  }

  function Align(prev: State, log: seq<Entry>, now: int): Update {
    var n := New(prev, log);
    var failed := FailedAt(log, n, NewestFinished(log, 0));
    assert forall i :: 0 <= i < |failed| ==> failed[i] in failed;
    Update(Entries(log, failed), if log == [] then prev.head else LogHead(log), true,
           if PassedBelow(log, n) then now else Min(prev.okAt, now), Summary(log))
  }

  // ---------------------------------------------------------------- the loops

  method Matches(head: seq<Id>, log: seq<Entry>, i: nat) returns (found: bool)
    requires i < |log|
    ensures found == MatchAt(head, log, i)
  {
    for k := 0 to Min(|head|, |log| - i)
      invariant forall j :: 0 <= j < k ==> log[i + j].id == head[j]
    {
      if log[i + k].id != head[k] { return false; }
    }
    found := true;
  }

  method FindAligned(head: seq<Id>, log: seq<Entry>) returns (r: Option<nat>)
    ensures r == AlignedFrom(head, log, 0)
  {
    for i := 0 to |log|
      invariant AlignedFrom(head, log, 0) == AlignedFrom(head, log, i)
    {
      var found := Matches(head, log, i);
      if found { return Some(i); }
    }
    r := None;
  }

  method CountNew(head: seq<Id>, log: seq<Entry>) returns (n: nat)
    requires head != []
    ensures n == NewCount(head, log)
  {
    var at := FindAligned(head, log);
    if at.Some? { return at.value; }
    n := 0;
    while n < |log| && log[n].hasHours && NewerThan(log[n], head[0].hours)
      invariant n <= |log| && Run(log, head[0].hours, 0) == Run(log, head[0].hours, n)
      decreases |log| - n
    {
      n := n + 1;
    }
  }

  method TakeHead(log: seq<Entry>) returns (head: seq<Id>)
    ensures head == LogHead(log)
  {
    head := [];
    for i := 0 to Min(|log|, HEAD_SIZE)
      invariant |head| == i && forall j :: 0 <= j < i ==> head[j] == log[j].id
    {
      head := head + [log[i].id];
    }
  }

  method NewestOf(log: seq<Entry>) returns (at: Option<nat>, newest: Option<Newest>)
    ensures at == NewestFinished(log, 0) && newest == Summary(log)
  {
    for i := 0 to |log|
      invariant NewestFinished(log, 0) == NewestFinished(log, i)
    {
      if log[i].outcome.Unfinished? { continue; }
      var e := log[i];
      return Some(i), Some(Newest(e.outcome, e.description, if e.hasHours then e.id.hours else 0));
    }
    at, newest := None, None;
  }

  method AlignSelfTests(prev: State, log: seq<Entry>, now: int) returns (out: Update)
    ensures out == Align(prev, log, now)
  {
    var at, newest := NewestOf(log);
    out := Update([], prev.head, true, Min(prev.okAt, now), newest);
    hide NewestFinished, NewCount;
    if |log| == 0 { return; }
    var head := TakeHead(log);
    out := out.(head := head);
    var n := |log|;
    if |prev.head| > 0 {
      n := CountNew(prev.head, log);
    } else if !prev.seen {
      return;
    }
    var okAt, failures := CollectNew(log, n, at, out.okAt, now);
    out := out.(okAt := okAt, failures := failures);
  }

  /** Goes through the new entries. */
  method CollectNew(log: seq<Entry>, n: nat, at: Option<nat>, was: int, now: int)
    returns (okAt: int, failures: seq<Entry>)
    requires n <= |log|
    ensures okAt == if PassedBelow(log, n) then now else was
    ensures InLog(log, FailedAt(log, n, at)) && failures == Entries(log, FailedAt(log, n, at))
  {
    hide FailedAt, Entries, PassedBelow;
    okAt, failures := was, [];
    NoneYet(log, at);
    for i := 0 to n
      invariant okAt == if PassedBelow(log, i) then now else was
      invariant InLog(log, FailedAt(log, i, at)) && failures == Entries(log, FailedAt(log, i, at))
    {
      OneMoreNew(log, i, at);
      if log[i].outcome.Passed? { okAt := now; }
      if log[i].outcome.Failed? && at != Some(i) { failures := failures + [log[i]]; }
    }
  }

  ghost predicate InLog(log: seq<Entry>, at: seq<nat>) { forall i :: 0 <= i < |at| ==> at[i] < |log| }

  lemma {:induction false} NoneYet(log: seq<Entry>, at: Option<nat>)
    ensures FailedAt(log, 0, at) == [] && Entries(log, []) == [] && !PassedBelow(log, 0)
  {
  }

  lemma {:induction false} OneMoreNew(log: seq<Entry>, i: nat, at: Option<nat>)
    requires i < |log| && InLog(log, FailedAt(log, i, at))
    ensures PassedBelow(log, i + 1) <==> PassedBelow(log, i) || log[i].outcome.Passed?
    ensures InLog(log, FailedAt(log, i + 1, at))
    ensures Entries(log, FailedAt(log, i + 1, at)) ==
            Entries(log, FailedAt(log, i, at)) + if log[i].outcome.Failed? && at != Some(i) then [log[i]] else []
  {
  }
}
