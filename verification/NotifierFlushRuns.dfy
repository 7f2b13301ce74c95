/** What a flush does over whole runs, told by what happened: which messages leave and
    how, which sends are filed as in progress, and what Telegram's health becomes. */
module NotifierFlushRuns {
  import opened NotifierModel
  import opened NotifierRuns
  import opened NotifierFlush
  import opened NotifierFates
  import opened NotifierNotify
  import F = NotifierFallback

  // ---------------------------------------------------------------- the walk of a channel

  /** The message whose abandoned send a channel's walk files, if any. */
  ghost function HungIn(s: State, walked: bool, ms: seq<Message>, o: int -> Outcome): set<int> {
    if !walked || ms == [] then {}
    else if Leaves(s, ms[0], o) then HungIn(s, true, ms[1..], o)
    else if ms[0].id !in s.sends.inflight && o(ms[0].id).Abandoned? then {ms[0].id}
    else {}
  }

  /** Telegram's health after the walk of its messages. */
  ghost function HealthIn(s: State, failing: bool, walked: bool, ms: seq<Message>, o: int -> Outcome): bool {
    if !walked || ms == [] || ms[0].id in s.sends.inflight then failing
    else if o(ms[0].id).Sent? then HealthIn(s, false, true, ms[1..], o)
    else failing || o(ms[0].id) == Failed(false) || o(ms[0].id) == Abandoned(false)
  }

  /** Only the marks and the resolved marks of the walked messages matter. */
  lemma {:induction false} HungSame(s: State, t: State, walked: bool, ms: seq<Message>, o: int -> Outcome)
    requires t.resolvedBefore == s.resolvedBefore
    requires forall i :: 0 <= i < |ms| ==> (ms[i].id in t.sends.inflight <==> ms[i].id in s.sends.inflight)
    ensures HungIn(t, walked, ms, o) == HungIn(s, walked, ms, o)
  {
    if walked && ms != [] { HungSame(s, t, true, ms[1..], o); }
  }

  lemma {:induction false} HealthSame(
    s: State, t: State, failing: bool, walked: bool, ms: seq<Message>, o: int -> Outcome)
    requires forall i :: 0 <= i < |ms| ==> (ms[i].id in t.sends.inflight <==> ms[i].id in s.sends.inflight)
    ensures HealthIn(t, failing, walked, ms, o) == HealthIn(s, failing, walked, ms, o)
  {
    if walked && ms != [] { HealthSame(s, t, false, true, ms[1..], o); }
  }

  /** The send of the message at hand, when it is filed. */
  ghost function HungOne(s: State, blocked: set<Channel>, m: Message, o: int -> Outcome): set<int> {
    if m.channel !in blocked && !Leaves(s, m, o) && m.id !in s.sends.inflight && o(m.id).Abandoned? then {m.id} else {}
  }

  lemma {:induction false} FlushOneSends(s: State, blocked: set<Channel>, m: Message, o: int -> Outcome)
    ensures var t := FlushOne(s, blocked, m, o(m.id)).0;
            && t.sends.inflight.Keys == s.sends.inflight.Keys + HungOne(s, blocked, m, o)
            && t.failing == HealthIn(s, s.failing, m.channel == Telegram && Telegram !in blocked, [m], o)
  {
    hide Remove, Bump;
    assert [m][1..] == [];
  }

  lemma {:induction false} HungStep(
    s: State, blocked: set<Channel>, m: Message, rest: seq<Message>, o: int -> Outcome, c: Channel)
    requires NoID(rest, m.id)
    ensures var (t, b) := FlushOne(s, blocked, m, o(m.id));
            HungIn(s, c !in blocked, OnChannel([m] + rest, c), o) ==
            (if m.channel == c then HungOne(s, blocked, m, o) else {}) + HungIn(t, c !in b, OnChannel(rest, c), o)
  {
    hide FlushOne, Leaves, OnChannel;
    var (t, b) := FlushOne(s, blocked, m, o(m.id));
    FlushOneMarks(s, blocked, m, o(m.id));
    FlushOneBlocks(s, blocked, m, o, c);
    OnChannelOne(m, rest, c);
    var ms := OnChannel(rest, c);
    OnChannelIn(rest, c);
    forall i | 0 <= i < |ms| ensures ms[i].id != m.id { assert ms[i] in rest; }
    HungSame(s, t, c !in b, ms, o);
    if m.channel == c {
      assert ([m] + ms)[1..] == ms;
      LeavesMarks(s, m, o);
    } else {
      assert [] + ms == ms;
    }
  }

  lemma {:induction false} HealthStep(
    s: State, blocked: set<Channel>, m: Message, rest: seq<Message>, o: int -> Outcome)
    requires NoID(rest, m.id)
    ensures var (t, b) := FlushOne(s, blocked, m, o(m.id));
            HealthIn(s, s.failing, Telegram !in blocked, OnChannel([m] + rest, Telegram), o) ==
            HealthIn(t, t.failing, Telegram !in b, OnChannel(rest, Telegram), o)
  {
    hide FlushOne, OnChannel;
    var (t, b) := FlushOne(s, blocked, m, o(m.id));
    FlushOneMarks(s, blocked, m, o(m.id));
    FlushOneBlocks(s, blocked, m, o, Telegram);
    FlushOneSends(s, blocked, m, o);
    OnChannelOne(m, rest, Telegram);
    var ms := OnChannel(rest, Telegram);
    OnChannelIn(rest, Telegram);
    forall i | 0 <= i < |ms| ensures ms[i].id != m.id { assert ms[i] in rest; }
    HealthSame(s, t, t.failing, Telegram !in b, ms, o);
    if m.channel == Telegram {
      assert ([m] + ms)[1..] == ms && [m][1..] == [];
    } else {
      assert [] + ms == ms;
    }
  }

  ghost function AllHung(s: State, blocked: set<Channel>, pending: seq<Message>, o: int -> Outcome): set<int> {
    HungIn(s, Telegram !in blocked, OnChannel(pending, Telegram), o)
    + HungIn(s, SMS !in blocked, OnChannel(pending, SMS), o)
    + HungIn(s, Email !in blocked, OnChannel(pending, Email), o)
  }

  /** The sends a flush files are one of each channel at most, and Telegram's health
      follows its own messages. */
  lemma {:induction false} FlushSends(s: State, blocked: set<Channel>, pending: seq<Message>, o: int -> Outcome)
    requires Ascending(pending)
    ensures var t := FlushAll(s, blocked, pending, o);
            && t.sends.inflight.Keys == s.sends.inflight.Keys + AllHung(s, blocked, pending, o)
            && t.failing == HealthIn(s, s.failing, Telegram !in blocked, OnChannel(pending, Telegram), o)
    decreases |pending|
  {
    hide FlushOne, HungOne, HealthIn, OnChannel, AllHung, Ascending;
    if pending == [] {
      NothingHung(s, blocked, o);
    } else {
      var (m, rest) := (pending[0], pending[1..]);
      var (t, b) := FlushOne(s, blocked, m, o(m.id));
      assert pending == [m] + rest;
      RestAscends(m, rest);
      FlushOneSends(s, blocked, m, o);
      AllHungStep(s, blocked, m, rest, o);
      HealthStep(s, blocked, m, rest, o);
      FlushSends(t, b, rest, o);
    }
  }

  lemma {:induction false} RestAscends(m: Message, rest: seq<Message>)
    requires Ascending([m] + rest)
    ensures Ascending(rest) && NoID(rest, m.id)
  {
    var q := [m] + rest;
    forall i | 0 <= i < |rest| ensures rest[i] == q[i + 1] && q[0].id < rest[i].id {}
  }

  lemma {:induction false} AllHungStep(
    s: State, blocked: set<Channel>, m: Message, rest: seq<Message>, o: int -> Outcome)
    requires NoID(rest, m.id)
    ensures var (t, b) := FlushOne(s, blocked, m, o(m.id));
            AllHung(s, blocked, [m] + rest, o) == HungOne(s, blocked, m, o) + AllHung(t, b, rest, o)
  {
    hide FlushOne, HungOne, HungIn, OnChannel;
    HungStep(s, blocked, m, rest, o, Telegram);
    HungStep(s, blocked, m, rest, o, SMS);
    HungStep(s, blocked, m, rest, o, Email);
  }

  lemma {:induction false} NothingHung(s: State, blocked: set<Channel>, o: int -> Outcome)
    ensures AllHung(s, blocked, [], o) == {}
    ensures HealthIn(s, s.failing, Telegram !in blocked, OnChannel([], Telegram), o) == s.failing
  {
  }

  // ---------------------------------------------------------------- how a message leaves

  /** Whatever a flush drops as stale is stale, and whatever it counts sent is not and
      was sent. */
  ghost predicate Gone(s: State, t: State, pending: seq<Message>, o: int -> Outcome) {
    && (forall m :: m in t.fates.stale ==> m in s.fates.stale || (m in pending && Stale(s, m)))
    && (forall m :: m in t.fates.sent ==> m in s.fates.sent || (m in pending && !Stale(s, m) && o(m.id).Sent?))
  }

  lemma {:induction false} FlushGone(s: State, blocked: set<Channel>, pending: seq<Message>, o: int -> Outcome)
    ensures Gone(s, FlushAll(s, blocked, pending, o), pending, o)
    decreases |pending|
  {
    if pending != [] {
      var (m, rest) := (pending[0], pending[1..]);
      var (t, b) := FlushOne(s, blocked, m, o(m.id));
      FlushOneGone(s, blocked, m, o);
      FlushGone(t, b, rest, o);
      FlushOneMarks(s, blocked, m, o(m.id));
      hide FlushOne;
      assert pending == [m] + rest;
    }
  }

  lemma {:induction false} FlushOneGone(s: State, blocked: set<Channel>, m: Message, o: int -> Outcome)
    ensures Gone(s, FlushOne(s, blocked, m, o(m.id)).0, [m], o)
  {
    hide Remove, Bump, Health, Stale;
  }

  lemma {:induction false} InCounts(q: seq<Message>, m: Message)
    requires m in q
    ensures Count(q, Core(m)) >= 1
  {
    var i :| 0 <= i < |q| && q[i] == m;
    CountSome(q, i);
  }

  lemma {:induction false} SameMessage(q: seq<Message>, a: Message, b: Message)
    requires OwnQueue(q) && a in q && b in q && a.uid == b.uid
    ensures a == b
  {
  }

  ghost predicate OwnQueue(q: seq<Message>) { forall i, j :: 0 <= i < j < |q| ==> q[i].uid != q[j].uid }

  lemma {:induction false} QueueIsOwn(s: State)
    requires Inv(s)
    ensures OwnQueue(s.queue)
  {
    forall i, j | 0 <= i < j < |s.queue| ensures s.queue[i].uid != s.queue[j].uid {
      IndexHas(s.queue, i);
      IndexHas(s.queue, j);
    }
  }

  /** A message a flush removes was dropped as stale, or sent and counted so. */
  lemma {:induction false} LeavesAs(s: State, blocked: set<Channel>, o: int -> Outcome, m: Message)
    requires Inv(s) && FatesInv(s) && m in s.queue
    requires forall x :: x in FlushAll(s, blocked, s.queue, o).queue ==> x.uid != m.uid
    ensures var t := FlushAll(s, blocked, s.queue, o);
            if Stale(s, m) then m in t.fates.stale else m in t.fates.sent && o(m.id).Sent? && m.uid in t.sends.delivered
  {
    hide FlushAll, Stale, Inv, FatesInv, OwnQueue, Gone, Delivers;
    var t := FlushAll(s, blocked, s.queue, o);
    FlushGone(s, blocked, s.queue, o);
    FlushEver(s, blocked, s.queue, o);
    FlushDelivers(s, blocked, s.queue, o);
    assert s.queue == [] + s.queue;
    FlushFates(s, blocked, [], s.queue, o);
    var g := OneOf(s, t, m);
    GoneIs(s, t, o, m, g);
  }

  /** What the flush counted anew is the message itself. */
  lemma {:induction false} GoneIs(s: State, t: State, o: int -> Outcome, m: Message, g: Message)
    requires Inv(s) && m in s.queue && Gone(s, t, s.queue, o) && Delivers(s, t) && Core(g) == Core(m)
    requires (g in t.fates.stale && g !in s.fates.stale) || (g in t.fates.sent && g !in s.fates.sent)
    ensures if Stale(s, m) then m in t.fates.stale else m in t.fates.sent && o(m.id).Sent? && m.uid in t.sends.delivered
  {
    hide Stale, Inv, OwnQueue;
    QueueIsOwn(s);
    assert g in s.queue && g.uid == Core(g).uid == Core(m).uid;
    SameMessage(s.queue, g, m);
  }

  /** The message is among those the flush counted sent or dropped as stale. */
  lemma {:induction false} OneOf(s: State, t: State, m: Message) returns (g: Message)
    requires Inv(s) && FatesInv(s) && FatesInv(t) && m in s.queue
    requires t.fates.ever == s.fates.ever && t.fates.handed == s.fates.handed
    requires forall x :: x in t.queue ==> x.uid != m.uid
    ensures Core(g) == Core(m)
    ensures (g in t.fates.stale && g !in s.fates.stale) || (g in t.fates.sent && g !in s.fates.sent)
  {
    hide SendsOK, Count, QueueOK;
    var x := Core(m);
    assert BalancedAt(s.fates, s.queue, x) && BalancedAt(t.fates, t.queue, x);
    InCounts(s.queue, m);
    CountUp(s.fates.ever, x);
    var e :| 0 <= e < |s.fates.ever| && Core(s.fates.ever[e]) == x;
    CountOnce(s.fates.ever, e);
    CountNone(t.queue, x);
    if Count(t.fates.stale, x) > 0 {
      CountUp(t.fates.stale, x);
      var i :| 0 <= i < |t.fates.stale| && Core(t.fates.stale[i]) == x;
      g := t.fates.stale[i];
      if g in s.fates.stale { InCounts(s.fates.stale, g); }
    } else {
      CountUp(t.fates.sent, x);
      var i :| 0 <= i < |t.fates.sent| && Core(t.fates.sent[i]) == x;
      g := t.fates.sent[i];
      if g in s.fates.sent { InCounts(s.fates.sent, g); }
    }
  }

  // ---------------------------------------------------------------- one channel's flush

  /** A PROBLEM queued for SMS whose key was marked resolved since. */
  ghost predicate Outdated(s: State, m: Message) {
    m.channel == SMS && m.kind == Problem && F.MarkedSince(s.log, m.uid, m.key)
  }

  lemma {:induction false} StaleMeans(s: State, m: Message)
    requires F.LogInv(s) && m in s.queue
    ensures Stale(s, m) <==> Outdated(s, m)
  {
    hide F.MarkedSince, F.GoodLog, F.KeysOK;
    var i :| 0 <= i < |s.queue| && s.queue[i] == m;
    assert F.Verdict(s, s.queue[i]);
  }

  predicate NotWalked(s: State, opts: Options, c: Channel) {
    match c
    case Telegram => s.offline || !opts.hasTelegram
    case SMS => !opts.hasSMS
    case Email => true
  }

  /** The message left: dropped unsent when it is outdated, else sent. */
  ghost predicate GoneAs(s: State, t: State, m: Message, o: int -> Outcome) {
    && m.id !in s.sends.inflight
    && if Outdated(s, m) then m in t.fates.stale
       else o(m.id).Sent? && m in t.fates.sent && m.uid in t.sends.delivered
  }

  /** The message is where the channel's walk ended: its send is still in progress, or
      it was tried and failed. */
  ghost predicate StoppedAt(s: State, m: Message, r: Message, o: int -> Outcome) {
    if m.id in s.sends.inflight then r == m
    else !Outdated(s, m) && !o(m.id).Sent? && r == m.(attempts := m.attempts + 1)
  }

  /** The first n messages of the channel left, and of the others only the first was
      touched; a send of it that hangs is filed. */
  ghost predicate FlushedTo(s: State, t: State, c: Channel, n: nat, o: int -> Outcome) {
    var (ms, rs) := (OnChannel(s.queue, c), OnChannel(t.queue, c));
    && n <= |ms| && |rs| == |ms| - n
    && (forall i :: 0 <= i < n ==> GoneAs(s, t, ms[i], o))
    && (n < |ms| ==> rs[1..] == ms[n + 1..] && StoppedAt(s, ms[n], rs[0], o))
    && (forall i :: n <= i < |ms| ==> FiledAs(s, t, ms[i], i == n, o))
    && (c == Telegram ==> t.failing == ((n == 0 && s.failing) || (n < |ms| && FailedNow(s, ms[n], o))))
  }

  ghost predicate FiledAs(s: State, t: State, m: Message, first: bool, o: int -> Outcome) {
    m.id in t.sends.inflight <==> m.id in s.sends.inflight || (first && o(m.id).Abandoned?)
  }

  /** The send was tried, and failed by itself, not for its context being stopped. */
  ghost predicate FailedNow(s: State, m: Message, o: int -> Outcome) {
    m.id !in s.sends.inflight && (o(m.id) == Failed(false) || o(m.id) == Abandoned(false))
  }

  lemma {:induction false} HungAt(s: State, ms: seq<Message>, r: seq<Message>, n: nat, o: int -> Outcome)
    requires SuffixOf(s, r, ms, n, o)
    ensures HungIn(s, true, ms, o) ==
            if n < |ms| && ms[n].id !in s.sends.inflight && o(ms[n].id).Abandoned? then {ms[n].id} else {}
  {
    hide Leaves;
    if n > 0 {
      assert Leaves(s, ms[0], o);
      HungAt(s, ms[1..], r, n - 1, o);
    }
  }

  lemma {:induction false} HealthAt(
    s: State, failing: bool, ms: seq<Message>, r: seq<Message>, n: nat, o: int -> Outcome)
    requires SuffixOf(s, r, ms, n, o) && forall i :: 0 <= i < |ms| ==> ms[i].channel == Telegram
    ensures HealthIn(s, failing, true, ms, o) == ((n == 0 && failing) || (n < |ms| && FailedNow(s, ms[n], o)))
  {
    if n > 0 {
      assert Leaves(s, ms[0], o);
      HealthAt(s, false, ms[1..], r, n - 1, o);
    } else if ms != [] {
      assert !Leaves(s, ms[0], o);
    }
  }

  lemma {:induction false} HungIsIn(s: State, walked: bool, ms: seq<Message>, o: int -> Outcome, id: int)
    requires id in HungIn(s, walked, ms, o)
    ensures exists i :: 0 <= i < |ms| && ms[i].id == id
  {
    hide Leaves;
    if Leaves(s, ms[0], o) {
      HungIsIn(s, true, ms[1..], o, id);
      var i :| 0 <= i < |ms| - 1 && ms[1..][i].id == id;
      assert ms[i + 1].id == id;
    }
  }

  /** The walk of another channel files no send of this one. */
  lemma {:induction false} HungElsewhere(s: State, walked: bool, o: int -> Outcome, c: Channel, m: Message)
    requires Ascending(s.queue) && m in s.queue && m.channel != c
    ensures m.id !in HungIn(s, walked, OnChannel(s.queue, c), o)
  {
    hide HungIn, OnChannel;
    var ms := OnChannel(s.queue, c);
    if m.id in HungIn(s, walked, ms, o) {
      HungIsIn(s, walked, ms, o, m.id);
      var i :| 0 <= i < |ms| && ms[i].id == m.id;
      assert ms[i] in ms;
      OnChannelIn(s.queue, c);
    }
  }

  lemma {:induction false} HungHere(s: State, blocked: set<Channel>, o: int -> Outcome, m: Message)
    requires Ascending(s.queue) && m in s.queue
    ensures m.id in AllHung(s, blocked, s.queue, o) <==>
            m.id in HungIn(s, m.channel !in blocked, OnChannel(s.queue, m.channel), o)
  {
    hide HungIn, OnChannel;
    forall c | c != m.channel ensures m.id !in HungIn(s, c !in blocked, OnChannel(s.queue, c), o) {
      HungElsewhere(s, c !in blocked, o, c, m);
    }
  }

  /** A message of the removed prefix is nowhere in the queue. */
  lemma {:induction false} PrefixGone(s: State, t: State, c: Channel, n: nat, i: nat, o: int -> Outcome)
    requires OwnQueue(s.queue)
    requires var ms := OnChannel(s.queue, c); SuffixOf(s, OnChannel(t.queue, c), ms, n, o) && i < n
    requires forall x :: x in t.queue && x.uid == OnChannel(s.queue, c)[i].uid ==> x.channel == c
    ensures forall x :: x in t.queue ==> x.uid != OnChannel(s.queue, c)[i].uid
  {
    hide Leaves, OnChannel;
    var (ms, rs) := (OnChannel(s.queue, c), OnChannel(t.queue, c));
    ChannelOwn(s.queue, c);
    forall j | 0 <= j < |rs| ensures rs[j].uid != ms[i].uid {
      assert if j == 0 then rs[j].uid == ms[n].uid else rs[1..][j - 1] == ms[n + 1..][j - 1];
      assert rs[j].uid == ms[n + j].uid;
    }
    forall x | x in t.queue && x.channel == c ensures x.uid != ms[i].uid { ChannelHas(t.queue, c, x); }
  }

  lemma {:induction false} ChannelHas(q: seq<Message>, c: Channel, m: Message)
    requires m in q && m.channel == c
    ensures m in OnChannel(q, c)
  {
    if q[0] != m { assert q == [q[0]] + q[1..]; ChannelHas(q[1..], c, m); }
  }

  lemma {:induction false} ChannelOwn(q: seq<Message>, c: Channel)
    requires OwnQueue(q)
    ensures OwnQueue(OnChannel(q, c))
  {
    if q != [] {
      ChannelOwn(q[1..], c);
      OnChannelIn(q[1..], c);
      var rest := OnChannel(q[1..], c);
      forall j | 0 <= j < |rest| ensures rest[j].uid != q[0].uid { assert rest[j] in q[1..]; }
    }
  }

  lemma {:induction false} KeepsChannels(s: State, blocked: set<Channel>, o: int -> Outcome, m: Message)
    requires Inv(s) && m in s.queue
    ensures forall x :: x in FlushAll(s, blocked, s.queue, o).queue && x.uid == m.uid ==> x.channel == m.channel
  {
    hide FlushAll, SendsOK, QueueOK;
    var t := FlushAll(s, blocked, s.queue, o);
    F.FlushAllFlushed(s, blocked, s.queue, o);
    QueueIsOwn(s);
    forall x | x in t.queue && x.uid == m.uid ensures x.channel == m.channel {
      var i :| 0 <= i < |t.queue| && t.queue[i] == x;
      assert F.Copied(t.queue[i], s.queue);
      var j :| 0 <= j < |s.queue| && s.queue[j] == x.(attempts := s.queue[j].attempts);
      SameMessage(s.queue, s.queue[j], m);
    }
  }

  lemma {:induction false} PrefixLeaves(
    s: State, blocked: set<Channel>, o: int -> Outcome, c: Channel, n: nat, i: nat)
    requires Inv(s) && FatesInv(s) && F.LogInv(s)
    requires var t := FlushAll(s, blocked, s.queue, o);
             SuffixOf(s, OnChannel(t.queue, c), OnChannel(s.queue, c), n, o) && i < n
    ensures GoneAs(s, FlushAll(s, blocked, s.queue, o), OnChannel(s.queue, c)[i], o)
  {
    hide FlushAll, OnChannel, FatesInv, F.LogInv, SendsOK, QueueOK, Outdated, Stale;
    var t := FlushAll(s, blocked, s.queue, o);
    var m := OnChannel(s.queue, c)[i];
    assert m in OnChannel(s.queue, c) && Leaves(s, m, o);
    OnChannelIn(s.queue, c);
    QueueIsOwn(s);
    KeepsChannels(s, blocked, o, m);
    PrefixGone(s, t, c, n, i, o);
    LeavesAs(s, blocked, o, m);
    StaleMeans(s, m);
  }

  lemma {:induction false} HeadStops(s: State, c: Channel, r: seq<Message>, n: nat, o: int -> Outcome)
    requires F.LogInv(s) && SuffixOf(s, r, OnChannel(s.queue, c), n, o) && n < |OnChannel(s.queue, c)|
    ensures StoppedAt(s, OnChannel(s.queue, c)[n], r[0], o)
  {
    hide F.LogInv, Outdated, Stale, OnChannel;
    var m := OnChannel(s.queue, c)[n];
    OnChannelIn(s.queue, c);
    assert m in OnChannel(s.queue, c) && !Leaves(s, m, o);
    StaleMeans(s, m);
  }

  /** One channel after a flush of any reachable state. */
  lemma {:induction false} WalkEnds(s: State, blocked: set<Channel>, o: int -> Outcome, c: Channel) returns (n: nat)
    requires Inv(s) && FatesInv(s) && F.LogInv(s) && c !in blocked
    ensures FlushedTo(s, FlushAll(s, blocked, s.queue, o), c, n, o)
  {
    hide FlushAll, OnChannel, FatesInv, F.LogInv, Inv, GoneAs, StoppedAt, FailedNow, Leaves, FiledAs;
    var t := FlushAll(s, blocked, s.queue, o);
    var ms := OnChannel(s.queue, c);
    QueueAscends(s);
    n := WalkSuffix(s, blocked, o, c);
    forall i | 0 <= i < n ensures GoneAs(s, t, ms[i], o) { PrefixLeaves(s, blocked, o, c, n, i); }
    if n < |ms| { HeadStops(s, c, OnChannel(t.queue, c), n, o); }
    forall i | n <= i < |ms| ensures FiledAs(s, t, ms[i], i == n, o) { WalkFiles(s, blocked, o, c, n, i); }
    if c == Telegram { WalkHealth(s, blocked, o, n); }
  }

  lemma {:induction false} WalkSuffix(s: State, blocked: set<Channel>, o: int -> Outcome, c: Channel) returns (n: nat)
    requires Ascending(s.queue) && c !in blocked
    ensures SuffixOf(s, OnChannel(FlushAll(s, blocked, s.queue, o).queue, c), OnChannel(s.queue, c), n, o)
  {
    hide FlushAll, OnChannel, SuffixOf;
    var ms := OnChannel(s.queue, c);
    assert s.queue == [] + s.queue;
    FlushChannel(s, blocked, [], s.queue, o, c);
    OnChannelIn([], c);
    n := AfterChannelSuffix(s, ms, o);
    var rs := AfterChannel(s, ms, o);
    assert [] + rs == rs;
  }

  lemma {:induction false} WalkFiles(
    s: State, blocked: set<Channel>, o: int -> Outcome, c: Channel, n: nat, i: nat)
    requires Ascending(s.queue) && c !in blocked
    requires var t := FlushAll(s, blocked, s.queue, o);
             SuffixOf(s, OnChannel(t.queue, c), OnChannel(s.queue, c), n, o)
    requires n <= i < |OnChannel(s.queue, c)|
    ensures FiledAs(s, FlushAll(s, blocked, s.queue, o), OnChannel(s.queue, c)[i], i == n, o)
  {
    hide FlushAll, OnChannel, AllHung, HungIn, HealthIn, Leaves;
    var t := FlushAll(s, blocked, s.queue, o);
    var ms := OnChannel(s.queue, c);
    OnChannelIn(s.queue, c);
    assert ms[i] in ms;
    FlushSends(s, blocked, s.queue, o);
    HungAt(s, ms, OnChannel(t.queue, c), n, o);
    HungHere(s, blocked, o, ms[i]);
    OtherID(s, c, i, n);
  }

  lemma {:induction false} WalkHealth(s: State, blocked: set<Channel>, o: int -> Outcome, n: nat)
    requires Ascending(s.queue) && Telegram !in blocked
    requires var t := FlushAll(s, blocked, s.queue, o);
             SuffixOf(s, OnChannel(t.queue, Telegram), OnChannel(s.queue, Telegram), n, o)
    ensures var (t, ms) := (FlushAll(s, blocked, s.queue, o), OnChannel(s.queue, Telegram));
            t.failing == ((n == 0 && s.failing) || (n < |ms| && FailedNow(s, ms[n], o)))
  {
    hide FlushAll, OnChannel, AllHung, HealthIn, SuffixOf, FailedNow;
    var ms := OnChannel(s.queue, Telegram);
    OnChannelIn(s.queue, Telegram);
    FlushSends(s, blocked, s.queue, o);
    forall i | 0 <= i < |ms| ensures ms[i].channel == Telegram { assert ms[i] in ms; }
    HealthAt(s, s.failing, ms, OnChannel(FlushAll(s, blocked, s.queue, o).queue, Telegram), n, o);
    SuffixWithin(s, OnChannel(FlushAll(s, blocked, s.queue, o).queue, Telegram), ms, n, o);
  }

  lemma {:induction false} SuffixWithin(s: State, r: seq<Message>, ms: seq<Message>, n: nat, o: int -> Outcome)
    requires SuffixOf(s, r, ms, n, o)
    ensures n <= |ms|
  {
  }

  lemma {:induction false} OtherID(s: State, c: Channel, i: nat, n: nat)
    requires Ascending(s.queue) && i < |OnChannel(s.queue, c)| && n < |OnChannel(s.queue, c)|
    ensures i != n ==> OnChannel(s.queue, c)[i].id != OnChannel(s.queue, c)[n].id
  {
    hide OnChannel;
    ChannelAscends(s.queue, c);
  }

  lemma {:induction false} ChannelAscends(q: seq<Message>, c: Channel)
    requires Ascending(q)
    ensures Ascending(OnChannel(q, c))
  {
    if q != [] {
      var (m, tail) := (q[0], q[1..]);
      forall x | x in tail ensures x.id > m.id {
        var i :| 0 <= i < |tail| && tail[i] == x;
        assert q[i + 1] == x;
      }
      ChannelAscends(tail, c);
      OnChannelIn(tail, c);
      var rest := OnChannel(tail, c);
      forall j | 0 <= j < |rest| ensures rest[j].id > m.id { assert rest[j] in rest; }
      AscendsInFront(m, rest);
      assert q == [m] + tail;
      OnChannelFirst(m, tail, c);
      hide OnChannel, Ascending;
    }
  }

  lemma {:induction false} AscendsInFront(m: Message, rest: seq<Message>)
    requires Ascending(rest) && forall j :: 0 <= j < |rest| ==> rest[j].id > m.id
    ensures Ascending([m] + rest)
  {
  }

  /** A channel that is not walked keeps its queue, and files no send. */
  ghost predicate LeftAlone(s: State, t: State, c: Channel) {
    var ms := OnChannel(s.queue, c);
    && OnChannel(t.queue, c) == ms && (c == Telegram ==> t.failing == s.failing)
    && forall i :: 0 <= i < |ms| ==> (ms[i].id in t.sends.inflight <==> ms[i].id in s.sends.inflight)
  }

  lemma {:induction false} SkipsQueue(s: State, blocked: set<Channel>, o: int -> Outcome, c: Channel)
    requires Ascending(s.queue) && c in blocked
    ensures OnChannel(FlushAll(s, blocked, s.queue, o).queue, c) == OnChannel(s.queue, c)
  {
    hide FlushAll, OnChannel, Ascending, AfterChannel;
    assert s.queue == [] + s.queue;
    FlushChannel(s, blocked, [], s.queue, o, c);
    OnChannelIn([], c);
    assert [] + OnChannel(s.queue, c) == OnChannel(s.queue, c);
  }

  lemma {:induction false} WalkSkips(s: State, blocked: set<Channel>, o: int -> Outcome, c: Channel)
    requires Ascending(s.queue) && c in blocked
    ensures LeftAlone(s, FlushAll(s, blocked, s.queue, o), c)
  {
    hide FlushAll, OnChannel, AllHung, Ascending;
    var t := FlushAll(s, blocked, s.queue, o);
    var ms := OnChannel(s.queue, c);
    SkipsQueue(s, blocked, o, c);
    OnChannelIn(s.queue, c);
    FlushSends(s, blocked, s.queue, o);
    forall i | 0 <= i < |ms| ensures ms[i].id in t.sends.inflight <==> ms[i].id in s.sends.inflight {
      assert ms[i] in ms;
      HungHere(s, blocked, o, ms[i]);
    }
  }

  // ---------------------------------------------------------------- main results

  /** Over every run, what a flush does to each channel, told by the log: a channel
      that may not be used is left alone. Of any other a prefix leaves: the PROBLEMs
      queued for SMS whose key was marked resolved since are dropped unsent, and the
      others were sent. The walk stops at a message whose send is in progress or
      fails. Telegram's health is that of its last send. */
  lemma {:induction false} FlushLeavesSuffix(opts: Options, states: seq<State>, steps: seq<Step>, k: nat,
                                             o: int -> Outcome, fb: string -> Outcome, c: Channel)
    requires Run(opts, states, steps) && k < |states|
    ensures var (s, t) := (states[k], Flush(states[k], opts, o, fb));
            if NotWalked(s, opts, c) then LeftAlone(s, t, c) else exists n :: FlushedTo(s, t, c, n, o)
  {
    hide Inv, FatesInv, F.LogInv, FlushAll, Next, Enabled, Fallback, FlushedTo, LeftAlone;
    Reachable(opts, states, steps, k);
    FatesReachable(opts, states, steps, k);
    F.LogReachable(opts, states, steps, k);
    var s := states[k];
    var blocked := InitiallyBlocked(s, opts);
    var u := FlushAll(s, blocked, s.queue, o);
    FallbackIsBeside(u, opts, fb);
    if NotWalked(s, opts, c) {
      QueueAscends(s);
      WalkSkips(s, blocked, o, c);
      AloneBeside(s, u, Fallback(u, opts, fb), c);
    } else {
      var n := WalkEnds(s, blocked, o, c);
      FlushedBeside(s, u, Fallback(u, opts, fb), c, n, o);
    }
  }

  lemma {:induction false} AloneBeside(s: State, u: State, t: State, c: Channel)
    requires LeftAlone(s, u, c) && t.queue == u.queue && t.sends == u.sends && t.failing == u.failing
    ensures LeftAlone(s, t, c)
  {
    hide OnChannel;
  }

  lemma {:induction false} FlushedBeside(s: State, u: State, t: State, c: Channel, n: nat, o: int -> Outcome)
    requires FlushedTo(s, u, c, n, o)
    requires t.queue == u.queue && t.sends == u.sends && t.failing == u.failing && t.fates == u.fates
    ensures FlushedTo(s, t, c, n, o)
  {
    hide OnChannel, StoppedAt, FailedNow, Outdated;
    var ms := OnChannel(s.queue, c);
    forall i | 0 <= i < n ensures GoneAs(s, t, ms[i], o) { assert GoneAs(s, u, ms[i], o); }
    forall i | n <= i < |ms| ensures FiledAs(s, t, ms[i], i == n, o) { assert FiledAs(s, u, ms[i], i == n, o); }
  }

  // ---------------------------------------------------------------- stale messages over runs

  /** What a step adds to the log, and that no identity is queued twice. */
  ghost predicate Logs(s: State, t: State) {
    && s.log <= t.log && s.sends.nextUid <= t.sends.nextUid
    && forall e :: e in t.log[|s.log|..] && e.Queued? ==> e.uid >= s.sends.nextUid
  }

  lemma {:induction false} MarkedStays(log: seq<Entry>, more: seq<Entry>, uid: nat, key: string)
    requires F.MarkedSince(log, uid, key) && forall e :: e in more && e.Queued? ==> e.uid != uid
    ensures F.MarkedSince(log + more, uid, key)
  {
    if more == [] {
      assert log + more == log;
    } else {
      var n := |more| - 1;
      MarkedStays(log, more[..n], uid, key);
      assert (log + more)[..|log| + n] == log + more[..n];
      assert more[n] in more;
    }
  }

  lemma {:induction false} NextLogs(s: State, opts: Options, step: Step)
    requires Enabled(s, step)
    ensures Logs(s, Next(s, opts, step))
  {
    hide Notify, FlushAll, Fallback, Merge, NotBefore, Expired, Remove, Removed, Bump;
    var t := Next(s, opts, step);
    match step
    case DoNotify(p) =>
      NotifyTells(s, opts, p);
      LogEnds(KeysBefore(s, opts, p), s.log, Written(s, opts, p, s.sends.nextUid), s.sends.nextUid, t);
    case DoFlush(o, fb) =>
      var u := FlushAll(s, InitiallyBlocked(s, opts), s.queue, o);
      F.FlushAllFlushed(s, InitiallyBlocked(s, opts), s.queue, o);
      FallbackIsBeside(u, opts, fb);
      LogEnds(u.smsProblems, s.log, [], s.sends.nextUid, t);
    case DoMerge(stored) => MergeAdds(s, stored);
    case DoSettle(f, ok) => assert t.log[|s.log|..] == [];
    case DoForget(key) => assert t.log[|s.log|..] == [Marked(key)];
    case DoSettleFallback(key, ok) =>
      assert t.log[|s.log|..] == if ok || key !in s.smsProblems then [] else [GaveBack(key)];
    case _ => assert t.log[|s.log|..] == [];
  }

  lemma {:induction false} MergeAdds(s: State, stored: seq<Message>)
    ensures Logs(s, Merge(s, stored))
  {
    hide RenumberMarks, RenumberFlight, MoveMarks, Trimmed, Overflow;
    assert Merge(s, stored).log[|s.log|..] == StoredEntries(Identified(stored, s.sends.nextUid));
  }

  lemma {:induction false} LogEnds(b: set<string>, log: seq<Entry>, written: seq<Entry>, uid: nat, t: State)
    requires FallbackEnds(b, log + written, t) && forall e :: e in written && e.Queued? ==> e.uid >= uid
    ensures log <= t.log && forall e :: e in t.log[|log|..] && e.Queued? ==> e.uid >= uid
  {
    var fall := t.log[|log + written|..];
    assert t.log[|log|..] == written + fall;
  }

  ghost predicate StaleLogOK(s: State) {
    forall m :: m in s.fates.stale ==> Outdated(s, m) && m.uid < s.sends.nextUid
  }

  lemma {:induction false} OutdatedStays(s: State, t: State, m: Message)
    requires Outdated(s, m) && m.uid < s.sends.nextUid && Logs(s, t)
    ensures Outdated(t, m) && m.uid < t.sends.nextUid
  {
    hide F.MarkedSince;
    MarkedStays(s.log, t.log[|s.log|..], m.uid, m.key);
    assert s.log + t.log[|s.log|..] == t.log;
  }

  lemma {:induction false} NextStaleLog(s: State, opts: Options, step: Step)
    requires Inv(s) && F.LogInv(s) && Enabled(s, step) && StaleLogOK(s)
    ensures StaleLogOK(Next(s, opts, step))
  {
    hide F.LogInv, Next, FlushAll, Logs, Outdated, Stale, SendsOK, QueueOK;
    var t := Next(s, opts, step);
    NextLogs(s, opts, step);
    if step.DoFlush? {
      FlushIs(s, opts, step);
      FlushGone(s, InitiallyBlocked(s, opts), s.queue, step.sends);
    } else {
      OthersStale(s, opts, step);
    }
    forall m | m in t.fates.stale ensures Outdated(t, m) && m.uid < t.sends.nextUid {
      if m !in s.fates.stale {
        StaleMeans(s, m);
        QueuedUid(s, m);
      }
      OutdatedStays(s, t, m);
    }
  }

  lemma {:induction false} QueuedUid(s: State, m: Message)
    requires Inv(s) && m in s.queue
    ensures m.uid < s.sends.nextUid
  {
    var i :| 0 <= i < |s.queue| && s.queue[i] == m;
    IndexHas(s.queue, i);
  }

  lemma {:induction false} StaleLogReachable(opts: Options, states: seq<State>, steps: seq<Step>, k: nat)
    requires Run(opts, states, steps) && k < |states|
    ensures StaleLogOK(states[k])
  {
    hide Next, Inv, Enabled, F.LogInv, Outdated;
    if k > 0 {
      StaleLogReachable(opts, states, steps, k - 1);
      Reachable(opts, states, steps, k - 1);
      F.LogReachable(opts, states, steps, k - 1);
      NextStaleLog(states[k - 1], opts, steps[k - 1]);
    }
  }

  /** In every run a message dropped as stale is a PROBLEM queued for SMS whose key was
      marked resolved after it was queued; it is never delivered and has no send in
      progress. */
  lemma {:induction false} StaleWasResolved(opts: Options, states: seq<State>, steps: seq<Step>, k: nat, m: Message)
    requires Run(opts, states, steps) && k < |states| && m in states[k].fates.stale
    ensures m.kind == Problem && m.channel == SMS && F.MarkedSince(states[k].log, m.uid, m.key)
    ensures states[k].sends.delivered[m.uid] == 0
    ensures forall f :: f in states[k].sends.flights ==> states[k].sends.flights[f].uid != m.uid
  {
    hide Next, Enabled, F.MarkedSince;
    StaleLogReachable(opts, states, steps, k);
    StaleIsGone(opts, states, steps, k, m);
  }
}
