/** What a flush leaves of each channel's queue: an order-preserving suffix, with
    at most the attempts of its head changed. */
module NotifierFlush {
  import opened NotifierModel
  import opened NotifierRuns

  /** The messages of one channel, in queue order. */
  ghost function OnChannel(q: seq<Message>, c: Channel): seq<Message> {
    if q == [] then []
    else (if q[0].channel == c then [q[0]] else []) + OnChannel(q[1..], c)
  }

  lemma {:induction false} OnChannelFirst(m: Message, q: seq<Message>, c: Channel)
    ensures OnChannel([m] + q, c) == (if m.channel == c then [m] else []) + OnChannel(q, c)
  {
    assert ([m] + q)[1..] == q;
  }

  lemma {:induction false} OnChannelAppend(p: seq<Message>, q: seq<Message>, c: Channel)
    ensures OnChannel(p + q, c) == OnChannel(p, c) + OnChannel(q, c)
  {
    if p == [] {
      assert p + q == q;
    } else {
      hide OnChannel;
      var (m, rest) := (p[0], p[1..]);
      OnChannelAppend(rest, q, c);
      assert p == [m] + rest && p + q == [m] + (rest + q);
      OnChannelFirst(m, rest, c);
      OnChannelFirst(m, rest + q, c);
    }
  }

  /** A message that leaves the queue in a flush: sent, or a stale SMS PROBLEM. */
  ghost predicate Leaves(s: State, m: Message, o: int -> Outcome) {
    m.id !in s.sends.inflight && (Stale(s, m) || o(m.id).Sent?)
  }

  /** One channel's own queue after a flush that walks it alone. */
  ghost function AfterChannel(s: State, ms: seq<Message>, o: int -> Outcome): seq<Message> {
    if ms == [] then []
    else if Leaves(s, ms[0], o) then AfterChannel(s, ms[1..], o)
    else if ms[0].id in s.sends.inflight then ms
    else [ms[0].(attempts := ms[0].attempts + 1)] + ms[1..]
  }

  /** Only the marks and the resolved marks of the walked messages matter. */
  lemma {:induction false} AfterChannelSame(s: State, t: State, ms: seq<Message>, o: int -> Outcome)
    requires t.resolvedBefore == s.resolvedBefore
    requires forall i :: 0 <= i < |ms| ==> (ms[i].id in t.sends.inflight <==> ms[i].id in s.sends.inflight)
    ensures AfterChannel(t, ms, o) == AfterChannel(s, ms, o)
  {
    if ms != [] { AfterChannelSame(s, t, ms[1..], o); }
  }

  lemma {:induction false} OnChannelIn(q: seq<Message>, c: Channel)
    ensures forall m :: m in OnChannel(q, c) ==> m in q && m.channel == c
    ensures q == [] ==> OnChannel(q, c) == []
  {
    if q != [] {
      OnChannelIn(q[1..], c);
      assert q == [q[0]] + q[1..];
    }
  }

  lemma {:induction false} FlushOneMarks(s: State, blocked: set<Channel>, m: Message, o: Outcome)
    ensures var t := FlushOne(s, blocked, m, o).0;
            && t.resolvedBefore == s.resolvedBefore
            && forall id :: id != m.id ==> (id in t.sends.inflight <==> id in s.sends.inflight)
  {
  }

  /** What a channel still walked keeps of the message at hand and of the rest. */
  ghost function Left(s: State, walked: bool, ms: seq<Message>, o: int -> Outcome): seq<Message> {
    if walked then AfterChannel(s, ms, o) else ms
  }

  lemma {:induction false} FlushOneBlocks(s: State, blocked: set<Channel>, m: Message, o: int -> Outcome, c: Channel)
    ensures c !in FlushOne(s, blocked, m, o(m.id)).1 <==> c !in blocked && (m.channel != c || Leaves(s, m, o))
    ensures Kept(s, blocked, m, o(m.id)) ==
            if m.channel !in blocked && Leaves(s, m, o) then []
            else if m.channel in blocked || m.id in s.sends.inflight then [m]
            else [m.(attempts := m.attempts + 1)]
  {
  }

  lemma {:induction false} OnChannelOne(m: Message, rest: seq<Message>, c: Channel)
    ensures OnChannel([m] + rest, c) == (if m.channel == c then [m] else []) + OnChannel(rest, c)
    ensures OnChannel([m], c) == if m.channel == c then [m] else []
  {
    assert ([m] + rest)[1..] == rest;
    assert [m][1..] == [];
  }

  lemma {:induction false} LeftStep(
    s: State, blocked: set<Channel>, m: Message, rest: seq<Message>, o: int -> Outcome, c: Channel)
    requires NoID(rest, m.id)
    ensures var (t, b) := FlushOne(s, blocked, m, o(m.id));
            Left(s, c !in blocked, OnChannel([m] + rest, c), o) ==
            OnChannel(Kept(s, blocked, m, o(m.id)), c) + Left(t, c !in b, OnChannel(rest, c), o)
  {
    hide FlushOne, Kept, Leaves, OnChannel;
    var (t, b) := FlushOne(s, blocked, m, o(m.id));
    FlushOneMarks(s, blocked, m, o(m.id));
    FlushOneBlocks(s, blocked, m, o, c);
    OnChannelOne(m, rest, c);
    OnChannelOne(m.(attempts := m.attempts + 1), rest, c);
    assert OnChannel([], c) == [] by { OnChannelIn([], c); }
    var ms := OnChannel(rest, c);
    OnChannelIn(rest, c);
    forall i | 0 <= i < |ms| ensures ms[i].id != m.id { assert ms[i] in rest; }
    AfterChannelSame(s, t, ms, o);
    if m.channel == c {
      assert ([m] + ms)[1..] == ms;
      LeavesMarks(s, m, o);
    } else {
      assert [] + ms == ms;
    }
  }

  lemma {:induction false} LeavesMarks(s: State, m: Message, o: int -> Outcome)
    ensures Leaves(s, m, o) ==> m.id !in s.sends.inflight
  {
  }

  lemma {:induction false} FlushChannel(
    s: State, blocked: set<Channel>, done: seq<Message>, pending: seq<Message>, o: int -> Outcome, c: Channel)
    requires Ascending(s.queue) && s.queue == done + pending
    ensures OnChannel(FlushAll(s, blocked, pending, o).queue, c) ==
            OnChannel(done, c) + Left(s, c !in blocked, OnChannel(pending, c), o)
    decreases |pending|
  {
    hide Left, FlushOne, Kept;
    if pending == [] {
      assert s.queue == done;
      LeftNone(s, c !in blocked, o);
    } else {
      var m, rest := pending[0], pending[1..];
      var r := o(m.id);
      assert pending == [m] + rest && s.queue == done + [m] + rest;
      AscendingAround(done, m, rest);
      FlushOneRest(s, blocked, done, m, rest, r);
      var (t, b) := FlushOne(s, blocked, m, r);
      var kept := Kept(s, blocked, m, r);
      AscendingKept(done, m, rest, kept, s, blocked, r);
      FlushChannel(t, b, done + kept, rest, o, c);
      OnChannelAppend(done, kept, c);
      LeftStep(s, blocked, m, rest, o, c);
    }
  }

  lemma {:induction false} LeftNone(s: State, walked: bool, o: int -> Outcome)
    ensures Left(s, walked, [], o) == []
  {
  }

  lemma {:induction false} AscendingKept(
    done: seq<Message>, m: Message, rest: seq<Message>, kept: seq<Message>, s: State, blocked: set<Channel>,
    o: Outcome)
    requires Ascending(done + [m] + rest) && kept == Kept(s, blocked, m, o)
    ensures Ascending(done + kept + rest)
  {
    var q, r := done + [m] + rest, done + kept + rest;
    if kept == [] {
      forall i | 0 <= i < |r| ensures r[i].id == q[if i < |done| then i else i + 1].id {}
    } else {
      forall i | 0 <= i < |r| ensures r[i].id == q[i].id {}
    }
  }

  // ---------------------------------------------------------------- the suffix

  /** r is what is left of ms once its first n messages left: a suffix, whose head
      had a failed attempt unless its own send is still in progress. */
  ghost predicate SuffixOf(s: State, r: seq<Message>, ms: seq<Message>, n: nat, o: int -> Outcome) {
    && n <= |ms|
    && (forall i :: 0 <= i < n ==> Leaves(s, ms[i], o))
    && (n < |ms| ==> !Leaves(s, ms[n], o))
    && (n == |ms| ==> r == [])
    && (n < |ms| ==> |r| == |ms| - n && r[1..] == ms[n + 1..]
                     && r[0] == if ms[n].id in s.sends.inflight then ms[n]
                                else ms[n].(attempts := ms[n].attempts + 1))
  }

  lemma {:induction false} AfterChannelSuffix(s: State, ms: seq<Message>, o: int -> Outcome) returns (n: nat)
    ensures SuffixOf(s, AfterChannel(s, ms, o), ms, n, o)
  {
    if ms == [] || !Leaves(s, ms[0], o) {
      n := 0;
    } else {
      var k := AfterChannelSuffix(s, ms[1..], o);
      n := k + 1;
      forall i | 0 <= i < n ensures Leaves(s, ms[i], o) { if i > 0 { assert ms[1..][i - 1] == ms[i]; } }
    }
  }

  /** A flush leaves a blocked channel's queue alone, and of any other a suffix: the
      messages that were sent or are stale form the removed prefix. */
  lemma {:induction false} FlushSuffix(s: State, opts: Options, o: int -> Outcome, fb: string -> Outcome, c: Channel)
    requires Ascending(s.queue)
    ensures var before, after := OnChannel(s.queue, c), OnChannel(Flush(s, opts, o, fb).queue, c);
            if c in InitiallyBlocked(s, opts) then after == before
            else exists n :: SuffixOf(s, after, before, n, o)
  {
    hide FlushAll, OnChannel, SuffixOf, DueItems, OutCount, OutEntries;
    assert s.queue == [] + s.queue;
    FlushChannel(s, InitiallyBlocked(s, opts), [], s.queue, o, c);
    OnChannelIn([], c);
    var ms := OnChannel(s.queue, c);
    var n := AfterChannelSuffix(s, ms, o);
    assert [] + ms == ms && [] + AfterChannel(s, ms, o) == AfterChannel(s, ms, o);
  }
}
