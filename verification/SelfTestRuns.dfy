/** Self-test logs read again and again. The drive's entries are numbered as they
    were made, oldest first; a read shows those from `lo` to `hi`, newest first. New
    entries come at the front and old ones are lost at the tail. */
module SelfTestRuns {
  import opened Basics
  import opened SelfTest

  datatype Read = Read(lo: nat, hi: nat, now: int)

  ghost predicate Reads(made: seq<Entry>, rs: seq<Read>) {
    && (forall k :: 0 <= k < |rs| ==> rs[k].lo <= rs[k].hi <= |made|)
    && (forall i, k :: 0 <= i < k < |rs| ==> rs[i].lo <= rs[k].lo && rs[i].hi <= rs[k].hi)
  }

  ghost function Log(made: seq<Entry>, r: Read): (log: seq<Entry>)
    requires r.lo <= r.hi <= |made|
    ensures |log| == r.hi - r.lo
  {
    seq(r.hi - r.lo, i requires 0 <= i < r.hi - r.lo => made[r.hi - 1 - i])
  }

  const START := State([], false, 0)

  /** The stored state before read k. */
  ghost function Before(made: seq<Entry>, rs: seq<Read>, k: nat): State
    requires Reads(made, rs) && k <= |rs|
  {
    if k == 0 then START
    else
      var u := Align(Before(made, rs, k - 1), Log(made, rs[k - 1]), rs[k - 1].now);
      State(u.head, u.seen, u.okAt)
  }

  /** How many entries read k counts as new. */
  ghost function NewAt(made: seq<Entry>, rs: seq<Read>, k: nat): (n: nat)
    requires Reads(made, rs) && k < |rs|
    ensures n <= rs[k].hi - rs[k].lo
  {
    New(Before(made, rs, k), Log(made, rs[k]))
  }

  /** Read k counts entry e as new. */
  ghost predicate CountsAt(made: seq<Entry>, rs: seq<Read>, k: nat, e: nat)
    requires Reads(made, rs) && k < |rs|
  {
    rs[k].hi - NewAt(made, rs, k) <= e < rs[k].hi
  }

  /** Up to which entry the head tells: the `hi` of the last read before k whose log
      was not empty, 0 when there was none. */
  ghost function Known(rs: seq<Read>, k: nat): nat
    requires k <= |rs|
  {
    if k == 0 then 0 else if rs[k - 1].lo < rs[k - 1].hi then rs[k - 1].hi else Known(rs, k - 1)
  }

  /** The head is the ids of the entries just below the known one. */
  ghost predicate HeadIs(made: seq<Entry>, head: seq<Id>, known: nat) {
    && known <= |made| && |head| <= known
    && (head == [] <==> known == 0)
    && forall i :: 0 <= i < |head| ==> head[i] == made[known - 1 - i].id
  }

  lemma {:induction false} BeforeIs(made: seq<Entry>, rs: seq<Read>, k: nat)
    requires Reads(made, rs) && k <= |rs|
    ensures HeadIs(made, Before(made, rs, k).head, Known(rs, k))
    ensures Before(made, rs, k).seen <==> k > 0
    ensures k < |rs| ==> Known(rs, k) <= rs[k].hi
    ensures k > 0 ==> Known(rs, k) <= rs[k - 1].hi
  {
    hide Align, HeadIs;
    if k == 0 {
      NoHead(made);
    } else {
      BeforeIs(made, rs, k - 1);
      HeadAfter(made, rs[k - 1], Before(made, rs, k - 1), Known(rs, k - 1));
    }
  }

  lemma {:induction false} NoHead(made: seq<Entry>)
    ensures HeadIs(made, [], 0)
  {
  }

  lemma {:induction false} HeadAfter(made: seq<Entry>, r: Read, prev: State, known: nat)
    requires r.lo <= r.hi <= |made| && HeadIs(made, prev.head, known)
    ensures var u := Align(prev, Log(made, r), r.now);
            u.seen && HeadIs(made, u.head, if r.lo < r.hi then r.hi else known)
  {
    hide New, FailedAt, NewestFinished, PassedBelow, Summary, Entries;
    var log := Log(made, r);
    if r.lo < r.hi {
      assert log != [];
      forall i | 0 <= i < |LogHead(log)| ensures LogHead(log)[i] == made[r.hi - 1 - i].id {}
    }
  }

  /** Where the known entries begin the head matches, so no more is counted. */
  lemma {:induction false} TrueMatch(made: seq<Entry>, r: Read, head: seq<Id>, known: nat)
    requires r.lo < known <= r.hi <= |made| && HeadIs(made, head, known)
    ensures MatchAt(head, Log(made, r), r.hi - known)
  {
  }

  lemma {:induction false} CountBound(made: seq<Entry>, r: Read, prev: State, known: nat)
    requires known <= r.hi <= |made| && r.lo <= r.hi && HeadIs(made, prev.head, known)
    ensures New(prev, Log(made, r)) <= r.hi - known
  {
    if r.lo < known { TrueMatch(made, r, prev.head, known); }
  }

  lemma {:induction false} NewIsUnknown(made: seq<Entry>, rs: seq<Read>, k: nat)
    requires Reads(made, rs) && k < |rs|
    ensures Known(rs, k) <= rs[k].hi - NewAt(made, rs, k)
  {
    BeforeIs(made, rs, k);
    CountBound(made, rs[k], Before(made, rs, k), Known(rs, k));
  }

  lemma {:induction false} KnownGrows(made: seq<Entry>, rs: seq<Read>, i: nat, k: nat)
    requires Reads(made, rs) && i < k <= |rs| && rs[i].lo < rs[i].hi
    ensures rs[i].hi <= Known(rs, k)
  {
    if i + 1 < k { KnownGrows(made, rs, i, k - 1); }
  }

  /** Over any sequence of reads no entry is counted as new twice. */
  lemma {:induction false} NeverNewTwice(made: seq<Entry>, rs: seq<Read>, i: nat, k: nat, e: nat)
    requires Reads(made, rs) && i < k < |rs| && CountsAt(made, rs, i, e)
    ensures !CountsAt(made, rs, k, e)
  {
    hide NewAt;
    NewIsUnknown(made, rs, k);
    KnownGrows(made, rs, i, k);
  }

  /** Read k reports entry e as a failure. */
  ghost predicate ReportsAt(made: seq<Entry>, rs: seq<Read>, k: nat, e: nat)
    requires Reads(made, rs) && k < |rs|
  {
    var log := Log(made, rs[k]);
    e < rs[k].hi && rs[k].hi - 1 - e in FailedAt(log, NewAt(made, rs, k), NewestFinished(log, 0))
  }

  /** So every failure is reported at most once. */
  lemma {:induction false} FailureReportedOnce(made: seq<Entry>, rs: seq<Read>, i: nat, k: nat, e: nat)
    requires Reads(made, rs) && i < k < |rs| && ReportsAt(made, rs, i, e)
    ensures !ReportsAt(made, rs, k, e)
  {
    hide NewAt, NewestFinished;
    NeverNewTwice(made, rs, i, k, e);
  }

  // ---------------------------------------------------------------- exactness

  /** The drive's clock behind the hours the log gives: strictly ascending, and
      the log shows it whole or modulo 65536. */
  ghost predicate Timed(made: seq<Entry>, hours: seq<int>) {
    && |hours| == |made|
    && (forall i, k :: 0 <= i < k < |hours| ==> hours[i] < hours[k])
    && (forall i :: 0 <= i < |made| ==>
          made[i].hasHours && made[i].id.hours == (if made[i].wraps then hours[i] % WRAP else hours[i]))
    && (forall i, k :: 0 <= i < |made| && 0 <= k < |made| ==> made[i].wraps == made[k].wraps)
  }

  ghost predicate OwnIds(made: seq<Entry>) { forall i, k :: 0 <= i < k < |made| ==> made[i].id != made[k].id }

  /** What the wrapped comparison says of any two true hours. */
  lemma {:induction false} WrappedExactly(e: Entry, true1: int, true2: int)
    requires e.wraps && e.id.hours == true1 % WRAP
    ensures NewerThan(e, true2 % WRAP) <==> 0 < (true1 - true2) % WRAP < WRAP / 2
  {
    SameRemainder(true1, true2);
    var (a, b) := (true1 % WRAP, true2 % WRAP);
    var d := (true1 - true2) % WRAP;
    assert d == (a - b) % WRAP;
    assert d == if a >= b then a - b else a - b + WRAP;
  }

  lemma {:induction false} SameRemainder(a: int, b: int)
    ensures (a - b) % WRAP == (a % WRAP - b % WRAP) % WRAP
  {
    assert (a - b) - (a % WRAP - b % WRAP) == WRAP * (a / WRAP - b / WRAP);
  }

  /** So it agrees with the true order of hours less than half the range apart. */
  lemma {:induction false} WrappedOrder(e: Entry, true1: int, true2: int)
    requires e.wraps && e.id.hours == true1 % WRAP && -WRAP / 2 < true1 - true2 < WRAP / 2
    ensures NewerThan(e, true2 % WRAP) <==> true1 > true2
  {
    WrappedExactly(e, true1, true2);
  }

  /** With distinct ids nothing but the true place matches. */
  lemma {:induction false} OnlyTrueMatch(made: seq<Entry>, r: Read, head: seq<Id>, known: nat, i: nat)
    requires 0 < known <= r.hi <= |made| && r.lo <= r.hi && HeadIs(made, head, known) && OwnIds(made)
    requires MatchAt(head, Log(made, r), i)
    ensures i == r.hi - known
  {
    assert Log(made, r)[i + 0].id == head[0];
  }

  /** Entry x compares as newer than the newest known one. */
  ghost predicate LooksNewer(made: seq<Entry>, hours: seq<int>, known: nat, x: nat)
    requires |hours| == |made| && 0 < known <= |made| && x < |made|
  {
    if made[x].wraps then 0 < (hours[x] - hours[known - 1]) % WRAP < WRAP / 2 else hours[x] > hours[known - 1]
  }

  lemma {:induction false} RunsIfNewer(made: seq<Entry>, hours: seq<int>, known: nat, x: nat)
    requires Timed(made, hours) && 0 < known <= |made| && x < |made|
    ensures RunsAfter(made[x], made[known - 1].id.hours) <==> LooksNewer(made, hours, known, x)
  {
    hide NewerThan;
    assert made[x].wraps == made[known - 1].wraps;
    if made[x].wraps {
      WrappedExactly(made[x], hours[x], hours[known - 1]);
    } else {
      PlainOrder(made[x], hours[known - 1]);
    }
  }

  lemma {:induction false} SameLength(made: seq<Entry>, hours: seq<int>)
    requires Timed(made, hours)
    ensures |hours| == |made|
  {
  }

  lemma {:induction false} PlainOrder(e: Entry, hours: int)
    requires !e.wraps
    ensures NewerThan(e, hours) <==> e.id.hours > hours
  {
  }

  lemma {:induction false} ShownCount(made: seq<Entry>, r: Read, head: seq<Id>, known: nat)
    requires OwnIds(made) && r.lo < known <= r.hi <= |made| && HeadIs(made, head, known)
    ensures NewCount(head, Log(made, r)) == r.hi - known
  {
    var at := AlignedFrom(head, Log(made, r), 0);
    TrueMatch(made, r, head, known);
    if at.Some? { OnlyTrueMatch(made, r, head, known, at.value); }
  }

  /** While the log shows a known entry, or when none was known, a read after the
      first counts exactly the entries made since the last, with distinct ids
      alone. */
  lemma {:induction false} ShownCountIsExact(made: seq<Entry>, rs: seq<Read>, k: nat, e: nat)
    requires Reads(made, rs) && 0 < k < |rs| && OwnIds(made) && (Known(rs, k) == 0 || rs[k].lo < Known(rs, k))
    ensures CountsAt(made, rs, k, e) <==> rs[k].lo <= e < rs[k].hi && Known(rs, k) <= e
  {
    hide OwnIds, NewCount;
    BeforeIs(made, rs, k);
    if Known(rs, k) > 0 { ShownCount(made, rs[k], Before(made, rs, k).head, Known(rs, k)); }
  }

  lemma {:induction false} LostCount(made: seq<Entry>, hours: seq<int>, r: Read, head: seq<Id>, known: nat)
    requires Timed(made, hours) && OwnIds(made) && 0 < known <= r.lo <= r.hi <= |made| && HeadIs(made, head, known)
    ensures var n := NewCount(head, Log(made, r));
            && (forall x :: r.hi - n <= x < r.hi ==> LooksNewer(made, hours, known, x))
            && (n < r.hi - r.lo ==> !LooksNewer(made, hours, known, r.hi - 1 - n))
  {
    hide Timed, OwnIds, LooksNewer, MatchAt;
    SameLength(made, hours);
    var log := Log(made, r);
    var at := AlignedFrom(head, log, 0);
    if at.Some? { OnlyTrueMatch(made, r, head, known, at.value); }
    var n := NewCount(head, log);
    assert n == Run(log, made[known - 1].id.hours, 0);
    forall x | r.hi - n <= x < r.hi ensures LooksNewer(made, hours, known, x) {
      RunsIfNewer(made, hours, known, x);
      assert log[r.hi - 1 - x] == made[x];
    }
    if n < |log| { RunsIfNewer(made, hours, known, r.hi - 1 - n); }
  }

  /** Every entry from e on that the log shows compares as newer. */
  ghost predicate NewerSince(made: seq<Entry>, hours: seq<int>, known: nat, e: nat, hi: nat)
    requires |hours| == |made| && 0 < known <= |made| && hi <= |made|
  {
    forall x :: e <= x < hi ==> LooksNewer(made, hours, known, x)
  }

  /** Once the log has lost every known entry, an entry is counted exactly when it and
      all newer ones compare as newer than the newest known one. */
  lemma {:induction false} LostCountIs(made: seq<Entry>, hours: seq<int>, rs: seq<Read>, k: nat, e: nat)
    requires Reads(made, rs) && 0 < k < |rs| && Timed(made, hours) && OwnIds(made) && 0 < Known(rs, k) <= rs[k].lo
    ensures CountsAt(made, rs, k, e) <==>
            rs[k].lo <= e < rs[k].hi && NewerSince(made, hours, Known(rs, k), e, rs[k].hi)
  {
    hide Timed, OwnIds, LooksNewer, NewCount;
    SameLength(made, hours);
    BeforeIs(made, rs, k);
    LostCount(made, hours, rs[k], Before(made, rs, k).head, Known(rs, k));
    var n := NewAt(made, rs, k);
    if rs[k].lo <= e < rs[k].hi && NewerSince(made, hours, Known(rs, k), e, rs[k].hi) && n < rs[k].hi - rs[k].lo {
      var x := rs[k].hi - 1 - n;
      assert x < e;
    }
  }

  /** So such a read misses nothing exactly when everything shown compares as newer. */
  lemma {:induction false} LostCountExactly(made: seq<Entry>, hours: seq<int>, rs: seq<Read>, k: nat)
    requires Reads(made, rs) && 0 < k < |rs| && Timed(made, hours) && OwnIds(made) && 0 < Known(rs, k) <= rs[k].lo
    ensures (forall e :: rs[k].lo <= e < rs[k].hi ==> CountsAt(made, rs, k, e)) <==>
            NewerSince(made, hours, Known(rs, k), rs[k].lo, rs[k].hi)
  {
    hide Timed, OwnIds, LooksNewer, CountsAt;
    SameLength(made, hours);
    forall e | rs[k].lo <= e < rs[k].hi
      ensures CountsAt(made, rs, k, e) <==> NewerSince(made, hours, Known(rs, k), e, rs[k].hi)
    {
      LostCountIs(made, hours, rs, k, e);
    }
    if rs[k].lo < rs[k].hi {
      assert CountsAt(made, rs, k, rs[k].lo) <==> NewerSince(made, hours, Known(rs, k), rs[k].lo, rs[k].hi);
    }
  }

  /** Where every known entry is lost, less than half the range has passed since the
      newest of them. */
  ghost predicate Soon(made: seq<Entry>, hours: seq<int>, r: Read, known: nat)
    requires 0 < known <= r.lo <= r.hi <= |made| && |hours| == |made|
  {
    r.lo < r.hi && made[r.hi - 1].wraps ==> hours[r.hi - 1] - hours[known - 1] < WRAP / 2
  }

  lemma {:induction false} SoonIsNewer(made: seq<Entry>, hours: seq<int>, r: Read, known: nat)
    requires Timed(made, hours) && 0 < known <= r.lo <= r.hi <= |made| && Soon(made, hours, r, known)
    ensures NewerSince(made, hours, known, r.lo, r.hi)
  {
    forall x | r.lo <= x < r.hi ensures LooksNewer(made, hours, known, x) {
      assert hours[known - 1] < hours[x] <= hours[r.hi - 1] && made[x].wraps == made[r.hi - 1].wraps;
    }
  }

  /** The hours matter only once every known entry is lost. */
  ghost predicate HoursDecide(made: seq<Entry>, hours: seq<int>, r: Read, known: nat) {
    0 < known <= r.lo <= r.hi <= |made| ==> Timed(made, hours) && Soon(made, hours, r, known)
  }

  /** With distinct ids, and hours less than half the range apart where every known
      entry is lost, a read after the first counts exactly the entries made since
      the last that the log still shows. */
  lemma {:induction false} CountIsExact(made: seq<Entry>, hours: seq<int>, rs: seq<Read>, k: nat, e: nat)
    requires Reads(made, rs) && 0 < k < |rs| && OwnIds(made) && HoursDecide(made, hours, rs[k], Known(rs, k))
    ensures CountsAt(made, rs, k, e) <==> rs[k].lo <= e < rs[k].hi && Known(rs, k) <= e
  {
    hide Timed, Soon, OwnIds, CountsAt, LooksNewer;
    BeforeIs(made, rs, k);
    if 0 < Known(rs, k) <= rs[k].lo {
      LostCountIs(made, hours, rs, k, e);
      SoonIsNewer(made, hours, rs[k], Known(rs, k));
    } else {
      ShownCountIsExact(made, rs, k, e);
    }
  }

  /** A read reports exactly the failures it counts, except the newest finished test,
      which the condition shows. */
  lemma {:induction false} ReportsExactly(made: seq<Entry>, rs: seq<Read>, k: nat, e: nat)
    requires Reads(made, rs) && k < |rs|
    ensures ReportsAt(made, rs, k, e) <==>
            CountsAt(made, rs, k, e) && made[e].outcome.Failed?
            && NewestFinished(Log(made, rs[k]), 0) != Some(rs[k].hi - 1 - e)
  {
    hide NewAt, NewestFinished;
    var (log, n) := (Log(made, rs[k]), NewAt(made, rs, k));
    if e < rs[k].hi {
      var i := rs[k].hi - 1 - e;
      assert i < n <==> CountsAt(made, rs, k, e);
      if i < n { assert log[i] == made[e]; }
    }
  }

  /** So with the count exact no failure is missed. */
  lemma {:induction false} FailureNotMissed(made: seq<Entry>, hours: seq<int>, rs: seq<Read>, k: nat, e: nat)
    requires Reads(made, rs) && 0 < k < |rs| && OwnIds(made) && HoursDecide(made, hours, rs[k], Known(rs, k))
    requires rs[k].lo <= e < rs[k].hi && Known(rs, k) <= e && made[e].outcome.Failed?
    ensures ReportsAt(made, rs, k, e) <==> NewestFinished(Log(made, rs[k]), 0) != Some(rs[k].hi - 1 - e)
  {
    hide NewAt, HoursDecide, OwnIds, NewestFinished, Known, CountsAt, ReportsAt;
    CountIsExact(made, hours, rs, k, e);
    ReportsExactly(made, rs, k, e);
  }

  // ---------------------------------------------------------------- passes and the newest entry

  /** Read k takes a counted entry as passed. */
  ghost predicate PassedIn(made: seq<Entry>, rs: seq<Read>, k: nat, e: nat)
    requires Reads(made, rs) && k < |rs|
  {
    e < |made| && CountsAt(made, rs, k, e) && made[e].outcome.Passed?
  }

  /** Over every series of reads: the first one counts nothing as new, whatever it
      shows; a read that counts a passed entry observes a pass then, and any other
      leaves the last one alone, but for a clock that went back. */
  lemma {:induction false} PassesObserved(made: seq<Entry>, rs: seq<Read>, k: nat)
    requires Reads(made, rs) && k < |rs|
    ensures k == 0 ==> NewAt(made, rs, k) == 0
    ensures Before(made, rs, k + 1).okAt ==
            if exists e :: PassedIn(made, rs, k, e) then rs[k].now
            else if Before(made, rs, k).okAt <= rs[k].now then Before(made, rs, k).okAt
            else rs[k].now
  {
    hide NewestFinished, FailedAt, Summary, NewCount;
    var (log, n) := (Log(made, rs[k]), NewAt(made, rs, k));
    if PassedBelow(log, n) {
      var i :| 0 <= i < n && log[i].outcome.Passed?;
      assert PassedIn(made, rs, k, rs[k].hi - 1 - i);
    }
    if e :| PassedIn(made, rs, k, e) { assert log[rs[k].hi - 1 - e].outcome.Passed?; }
    assert Before(made, rs, k + 1).okAt == Align(Before(made, rs, k), log, rs[k].now).okAt;
  }

  /** What a read says of the newest finished entry it shows: the outcome, and the
      hours when the entry has any. */
  lemma {:induction false} NewestSays(prev: State, log: seq<Entry>, now: int)
    ensures var u := Align(prev, log, now);
            && (u.newest.None? <==> forall i :: 0 <= i < |log| ==> log[i].outcome.Unfinished?)
            && (u.newest.Some? ==>
                  exists i :: 0 <= i < |log| && IsNewest(log, i) && u.newest.value.outcome == log[i].outcome
                              && u.newest.value.description == log[i].description
                              && u.newest.value.hours == if log[i].hasHours then log[i].id.hours else 0)
  {
    hide FailedAt, New, PassedBelow, NewestFinished;
    var i := NewestFinished(log, 0);
    if i.Some? { assert IsNewest(log, i.value); }
  }

  predicate IsNewest(log: seq<Entry>, i: nat)
    requires i < |log|
  {
    !log[i].outcome.Unfinished? && forall j :: 0 <= j < i ==> log[j].outcome.Unfinished?
  }
}
