/** Every message ever queued has one fate: it is queued, was sent, was dropped as
    stale, or was handed to OnDrop. */
module NotifierFates {
  import opened NotifierModel
  import opened NotifierRuns

  /** What stays the same of a message while it is queued. */
  function Core(m: Message): Message { m.(id := 0, attempts := 0) }

  /** How many of the messages are x, but for ID and attempts. */
  ghost function Count(q: seq<Message>, x: Message): nat {
    if q == [] then 0 else (if Core(q[0]) == x then 1 else 0) + Count(q[1..], x)
  }

  ghost predicate BalancedAt(f: Fates, q: seq<Message>, x: Message) {
    Count(f.ever, x) == Count(q, x) + Count(f.handed, x) + Count(f.stale, x) + Count(f.sent, x)
  }

  ghost predicate Balanced(f: Fates, q: seq<Message>) { forall x :: BalancedAt(f, q, x) }

  /** No identity is queued twice. */
  ghost predicate OwnUids(ever: seq<Message>, nextUid: nat) {
    && (forall i :: 0 <= i < |ever| ==> ever[i].uid < nextUid)
    && (forall i, j :: 0 <= i < j < |ever| ==> ever[i].uid != ever[j].uid)
  }

  ghost predicate FatesInv(s: State) { Balanced(s.fates, s.queue) && OwnUids(s.fates.ever, s.sends.nextUid) }

  ghost predicate Unused(s: State, uid: nat) {
    uid < s.sends.nextUid && forall i :: 0 <= i < |s.fates.ever| ==> s.fates.ever[i].uid != uid
  }

  // ---------------------------------------------------------------- lists

  lemma {:induction false} CountJoin(a: seq<Message>, b: seq<Message>, x: Message)
    ensures Count(a + b, x) == Count(a, x) + Count(b, x)
  {
    if a == [] {
      assert a + b == b;
    } else {
      CountJoin(a[1..], b, x);
      assert (a + b)[1..] == a[1..] + b;
    }
  }

  lemma {:induction false} RemoveCount(q: seq<Message>, id: int, x: Message)
    ensures Count(q, x) == Count(Remove(q, id), x) + Count(Removed(q, id), x)
  {
    if q != [] {
      if q[0].id == id {
        assert [q[0]][1..] == [];
      } else {
        RemoveCount(q[1..], id, x);
        assert Remove(q, id)[1..] == Remove(q[1..], id);
      }
    }
  }

  lemma {:induction false} SameCount(q: seq<Message>, r: seq<Message>, x: Message)
    requires |q| == |r| && forall i :: 0 <= i < |q| ==> Core(q[i]) == Core(r[i])
    ensures Count(q, x) == Count(r, x)
  {
    if q != [] { SameCount(q[1..], r[1..], x); }
  }

  lemma {:induction false} ExpiredCount(q: seq<Message>, cutoff: int, x: Message)
    ensures Count(q, x) == Count(NotBefore(q, cutoff), x) + Count(Expired(q, cutoff), x)
  {
    if q != [] {
      var kept, gone := NotBefore(q[1..], cutoff), Expired(q[1..], cutoff);
      ExpiredCount(q[1..], cutoff, x);
      assert ([q[0]] + kept)[1..] == kept && ([q[0]] + gone)[1..] == gone;
      assert [] + kept == kept && [] + gone == gone;
    }
  }

  lemma {:induction false} OverflowCount(q: seq<Message>, x: Message)
    ensures Count(q, x) == Count(Overflow(q), x) + Count(Trimmed(q), x)
  {
    if |q| > MAX_QUEUE {
      assert q == Overflow(q) + Trimmed(q);
      CountJoin(Overflow(q), Trimmed(q), x);
    }
  }

  // ---------------------------------------------------------------- steps of a fate

  lemma {:induction false} QueueBalanced(
    f: Fates, q: seq<Message>, merged: seq<Message>, more: seq<Message>, rest: seq<Message>)
    requires Balanced(f, q) && (merged == more + rest || merged == rest + more)
    requires |rest| == |q| && forall i :: 0 <= i < |q| ==> Core(q[i]) == Core(rest[i])
    ensures Balanced(f.Queue(more).Hand(Overflow(merged)), Trimmed(merged))
  {
    hide Overflow, Trimmed, Count;
    forall x ensures BalancedAt(f.Queue(more).Hand(Overflow(merged)), Trimmed(merged), x) {
      assert BalancedAt(f, q, x);
      SameCount(q, rest, x);
      CountJoin(f.ever, more, x);
      CountJoin(f.handed, Overflow(merged), x);
      CountJoin(more, rest, x);
      CountJoin(rest, more, x);
      OverflowCount(merged, x);
    }
  }

  /** q is r and the messages that leave it. */
  ghost predicate Parts(q: seq<Message>, r: seq<Message>, out: seq<Message>) {
    forall x :: Count(q, x) == Count(r, x) + Count(out, x)
  }

  lemma {:induction false} LeaveBalanced(f: Fates, q: seq<Message>, r: seq<Message>, out: seq<Message>)
    requires Balanced(f, q) && Parts(q, r, out)
    ensures Balanced(f.Hand(out), r) && Balanced(f.Send(out), r)
    ensures |out| == 1 ==> Balanced(f.Stale(out[0]), r)
  {
    hide Count;
    if |out| == 1 { assert out == [out[0]]; }
    forall x
      ensures BalancedAt(f.Hand(out), r, x) && BalancedAt(f.Send(out), r, x)
      ensures |out| == 1 ==> BalancedAt(f.Stale(out[0]), r, x)
    {
      assert BalancedAt(f, q, x);
      assert Count(q, x) == Count(r, x) + Count(out, x);
      CountJoin(f.handed, out, x);
      CountJoin(f.sent, out, x);
      CountJoin(f.stale, out, x);
    }
  }

  lemma {:induction false} RemoveParts(q: seq<Message>, id: int)
    ensures Parts(q, Remove(q, id), Removed(q, id))
  {
    hide Count;
    forall x ensures Count(q, x) == Count(Remove(q, id), x) + Count(Removed(q, id), x) { RemoveCount(q, id, x); }
  }

  lemma {:induction false} ExpiredParts(q: seq<Message>, cutoff: int)
    ensures Parts(q, NotBefore(q, cutoff), Expired(q, cutoff))
  {
    hide Count;
    forall x ensures Count(q, x) == Count(NotBefore(q, cutoff), x) + Count(Expired(q, cutoff), x) {
      ExpiredCount(q, cutoff, x);
    }
  }

  lemma {:induction false} SameBalanced(f: Fates, q: seq<Message>, r: seq<Message>)
    requires Balanced(f, q) && |r| == |q| && forall i :: 0 <= i < |q| ==> Core(q[i]) == Core(r[i])
    ensures Balanced(f, r)
  {
    hide Count;
    forall x ensures BalancedAt(f, r, x) {
      assert BalancedAt(f, q, x);
      SameCount(q, r, x);
    }
  }

  lemma {:induction false} EnqueueFates(
    s: State, channel: Channel, kind: Kind, key: string, uid: nat, now: int, o: Outcome)
    requires FatesInv(s) && Unused(s, uid)
    ensures FatesInv(Enqueue(s, channel, kind, key, uid, now, o))
    ensures forall v :: Unused(s, v) && v != uid ==> Unused(Enqueue(s, channel, kind, key, uid, now, o), v)
  {
    hide Balanced;
    var m := Message(s.nextID, uid, now, channel, kind, key, 0);
    QueueBalanced(s.fates, s.queue, s.queue + [m], [m], s.queue);
  }

  lemma {:induction false} SendTelegramFates(
    s: State, opts: Options, kind: Kind, key: string, uid: nat, now: int, o: Outcome)
    requires FatesInv(s) && Unused(s, uid)
    ensures FatesInv(SendTelegram(s, opts, kind, key, uid, now, o))
    ensures forall v :: Unused(s, v) && v != uid ==> Unused(SendTelegram(s, opts, kind, key, uid, now, o), v)
  {
    hide Balanced, OwnUids, Enqueue;
    EnqueueFates(s.(failing := true), Telegram, kind, key, uid, now, PastDeadline);
    EnqueueFates(s.(failing := Health(s.failing, o)), Telegram, kind, key, uid, now, o);
  }

  lemma {:induction false} SendSMSFates(s: State, kind: Kind, key: string, uid: nat, now: int, o: Outcome)
    requires FatesInv(s) && Unused(s, uid)
    ensures FatesInv(SendSMS(s, kind, key, uid, now, o))
    ensures forall v :: Unused(s, v) && v != uid ==> Unused(SendSMS(s, kind, key, uid, now, o), v)
  {
    hide Balanced, OwnUids, Enqueue;
    EnqueueFates(s, SMS, kind, key, uid, now, o);
  }

  lemma {:induction false} SendEitherFates(
    s: State, opts: Options, kind: Kind, key: string, uid: nat, now: int, tlg: Outcome, sms: Outcome)
    requires FatesInv(s) && Unused(s, uid)
    ensures FatesInv(SendEither(s, opts, kind, key, uid, now, tlg, sms).0)
    ensures forall v :: Unused(s, v) && v != uid ==> Unused(SendEither(s, opts, kind, key, uid, now, tlg, sms).0, v)
  {
    hide Balanced, OwnUids, Enqueue, SendTelegram;
    SendTelegramFates(s, opts, kind, key, uid, now, tlg);
    var tried := !s.offline && opts.hasTelegram;
    var h := if tried then s.(failing := Health(s.failing, tlg)) else s;
    var c := if kind == Problem && sms.Abandoned? then h.(smsProblems := h.smsProblems + {key}) else h;
    EnqueueFates(h, Telegram, kind, key, uid, now, PastDeadline);
    EnqueueFates(c, Telegram, kind, key, uid, now, tlg);
    EnqueueFates(c.(failing := true), Telegram, kind, key, uid, now, PastDeadline);
  }

  lemma {:induction false} RouteFates(s: State, opts: Options, p: Push, uid: nat)
    requires FatesInv(s) && Unused(s, uid)
    ensures FatesInv(Route(s, opts, p, uid).0)
    ensures forall v :: Unused(s, v) && v != uid ==> Unused(Route(s, opts, p, uid).0, v)
  {
    hide FatesInv, Unused, SendTelegram, SendEither, SendSMS;
    SendTelegramFates(s, opts, p.kind, p.key, uid, p.now, p.tlg);
    SendEitherFates(s, opts, p.kind, p.key, uid, p.now, p.tlg, p.sms);
    SendSMSFates(s, p.kind, p.key, uid, p.now, p.sms);
  }

  lemma {:induction false} NotifyFates(s: State, opts: Options, p: Push)
    requires FatesInv(s)
    ensures FatesInv(Notify(s, opts, p))
  {
    hide Balanced, Route, SendSMS, DueItems;
    var uid := s.sends.nextUid;
    var s2 := s.(sends := s.sends.(nextUid := uid + 2));
    assert Unused(s2, uid) && Unused(s2, uid + 1);
    RouteFates(s2, opts, p, uid);
    var r := Route(s2, opts, p, uid).0;
    assert Unused(r, uid + 1);
    SendSMSFates(MarkKey(r, p.key), Resolved, p.key, uid + 1, p.now, p.rsms);
  }

  lemma {:induction false} RemovedAround(done: seq<Message>, m: Message, rest: seq<Message>)
    requires NoID(done, m.id)
    ensures Removed(done + [m] + rest, m.id) == [m]
  {
    var q := done + [m] + rest;
    if done == [] {
      assert q == [m] + rest;
    } else {
      assert q[0] == done[0] && q[1..] == done[1..] + [m] + rest;
      RemovedAround(done[1..], m, rest);
    }
  }

  lemma {:induction false} FlushOneFates(
    s: State, blocked: set<Channel>, done: seq<Message>, m: Message, rest: seq<Message>, o: Outcome)
    requires FatesInv(s) && Ascending(s.queue) && s.queue == done + [m] + rest
    ensures FatesInv(FlushOne(s, blocked, m, o).0)
  {
    hide Balanced, Parts;
    AscendingAround(done, m, rest);
    RemovedAround(done, m, rest);
    RemoveParts(s.queue, m.id);
    LeaveBalanced(s.fates, s.queue, Remove(s.queue, m.id), [m]);
    SameBalanced(s.fates, s.queue, Bump(s.queue, m.id));
    hide Remove, Bump, Ascending, NoID, OwnUids;
  }

  lemma {:induction false} FlushFates(
    s: State, blocked: set<Channel>, done: seq<Message>, pending: seq<Message>, o: int -> Outcome)
    requires FatesInv(s) && Inv(s) && s.queue == done + pending
    ensures FatesInv(FlushAll(s, blocked, pending, o))
    decreases |pending|
  {
    hide FatesInv, Inv, FlushOne, Kept, Ascending;
    if pending != [] {
      QueueAscends(s);
      var r := o(pending[0].id);
      assert s.queue[|done|] == pending[0];
      FlushOneKeeps(s, blocked, |done|, r);
      assert s.queue == done + [pending[0]] + pending[1..];
      FlushOneRest(s, blocked, done, pending[0], pending[1..], r);
      FlushOneFates(s, blocked, done, pending[0], pending[1..], r);
      var (t, b) := FlushOne(s, blocked, pending[0], r);
      FlushFates(t, b, done + Kept(s, blocked, pending[0], r), pending[1..], o);
    }
  }

  lemma {:induction false} SettleFates(s: State, f: nat, ok: bool)
    requires FatesInv(s) && f in s.sends.flights
    ensures FatesInv(Settle(s, f, ok))
  {
    hide Balanced, Parts;
    var id := s.sends.flights[f].id;
    RemoveParts(s.queue, id);
    SameBalanced(s.fates, s.queue, Bump(s.queue, id));
    LeaveBalanced(s.fates, s.queue, Remove(s.queue, id), Removed(s.queue, id));
    hide Remove, Removed, Bump, OwnUids;
  }

  lemma {:induction false} ExpireFates(s: State, cutoff: int)
    requires FatesInv(s)
    ensures FatesInv(Expire(s, cutoff))
  {
    hide Balanced, Parts;
    ExpiredParts(s.queue, cutoff);
    LeaveBalanced(s.fates, s.queue, NotBefore(s.queue, cutoff), Expired(s.queue, cutoff));
  }

  lemma {:induction false} MergeFates(s: State, stored: seq<Message>)
    requires FatesInv(s)
    ensures FatesInv(Merge(s, stored))
  {
    hide Balanced, RenumberMarks, RenumberFlight, MoveMarks;
    var rows := Identified(stored, s.sends.nextUid);
    var moved := Renumbered(s.queue, Top(stored));
    QueueBalanced(s.fates, s.queue, rows + moved, rows, moved);
    var ever := s.fates.ever + rows;
    forall i, j | 0 <= i < j < |ever| ensures ever[i].uid != ever[j].uid && ever[j].uid < s.sends.nextUid + |stored| {
      if i < |s.fates.ever| { assert ever[i] == s.fates.ever[i]; }
      if j >= |s.fates.ever| { assert ever[j] == rows[j - |s.fates.ever|]; }
    }
  }

  lemma {:induction false} NextFates(s: State, opts: Options, step: Step)
    requires FatesInv(s) && Inv(s) && Enabled(s, step)
    ensures FatesInv(Next(s, opts, step))
  {
    hide Balanced, OwnUids, SendsOK, Notify, FlushAll, Merge, Expire, Settle, DueItems;
    match step
    case DoNotify(p) => NotifyFates(s, opts, p);
    case DoFlush(o, fb) =>
      assert s.queue == [] + s.queue;
      FlushFates(s, InitiallyBlocked(s, opts), [], s.queue, o);
    case DoMerge(stored) => MergeFates(s, stored);
    case DoExpire(cutoff) => ExpireFates(s, cutoff);
    case DoSettle(f, ok) => SettleFates(s, f, ok);
    case DoForget(_) =>
    case DoSettleFallback(_, _) =>
    case DoRestoreSMS(_) =>
    case DoRestoreChannels(_) =>
    case DoSetOffline(_) =>
  }

  lemma {:induction false} FatesReachable(opts: Options, states: seq<State>, steps: seq<Step>, k: nat)
    requires Run(opts, states, steps) && k < |states|
    ensures FatesInv(states[k])
  {
    hide FatesInv, Next, Inv, Enabled;
    if k == 0 {
      StartFates();
    } else {
      FatesReachable(opts, states, steps, k - 1);
      Reachable(opts, states, steps, k - 1);
      NextFates(states[k - 1], opts, steps[k - 1]);
    }
  }

  lemma {:induction false} StartFates()
    ensures FatesInv(Initial())
  {
  }

  // ---------------------------------------------------------------- one fate

  lemma {:induction false} CountNone(q: seq<Message>, x: Message)
    requires forall i :: 0 <= i < |q| ==> q[i].uid != x.uid
    ensures Count(q, x) == 0
  {
    if q != [] { CountNone(q[1..], x); }
  }

  lemma {:induction false} CountOnce(q: seq<Message>, i: nat)
    requires i < |q| && forall a, b :: 0 <= a < b < |q| ==> q[a].uid != q[b].uid
    ensures Count(q, Core(q[i])) == 1
  {
    if i == 0 {
      CountNone(q[1..], Core(q[0]));
    } else {
      assert q[0].uid != q[i].uid && q[1..][i - 1] == q[i];
      CountOnce(q[1..], i - 1);
    }
  }

  lemma {:induction false} CountSome(q: seq<Message>, i: nat)
    requires i < |q|
    ensures Count(q, Core(q[i])) >= 1
  {
    if i > 0 { assert q[1..][i - 1] == q[i]; CountSome(q[1..], i - 1); }
  }

  /** In every run each message ever queued is exactly once queued still, handed to
      OnDrop, dropped as stale, or sent. */
  lemma {:induction false} OneFateEach(opts: Options, states: seq<State>, steps: seq<Step>, k: nat, i: nat)
    requires Run(opts, states, steps) && k < |states| && i < |states[k].fates.ever|
    ensures var s, x := states[k], Core(states[k].fates.ever[i]);
            Count(s.queue, x) + Count(s.fates.handed, x) + Count(s.fates.stale, x) + Count(s.fates.sent, x) == 1
  {
    hide Next, Enabled;
    FatesReachable(opts, states, steps, k);
    var s := states[k];
    CountOnce(s.fates.ever, i);
    assert BalancedAt(s.fates, s.queue, Core(s.fates.ever[i]));
  }

  // ---------------------------------------------------------------- sent and never sent

  ghost predicate SentOK(s: State) { forall m :: m in s.fates.sent ==> m.uid in s.sends.delivered }

  /** A step adds to what was delivered and handed over, and what it counts sent is
      delivered. */
  ghost predicate Delivers(s: State, t: State) {
    && s.fates.handed <= t.fates.handed
    && (forall u :: u in s.sends.delivered ==> u in t.sends.delivered)
    && (forall m :: m in t.fates.sent ==> m in s.fates.sent || m.uid in t.sends.delivered)
  }

  lemma {:induction false} FlushDelivers(s: State, blocked: set<Channel>, pending: seq<Message>, o: int -> Outcome)
    ensures Delivers(s, FlushAll(s, blocked, pending, o))
    decreases |pending|
  {
    if pending != [] {
      var (t, b) := FlushOne(s, blocked, pending[0], o(pending[0].id));
      FlushOneDelivers(s, blocked, pending[0], o(pending[0].id));
      FlushDelivers(t, b, pending[1..], o);
      hide FlushOne;
    }
  }

  lemma {:induction false} FlushOneDelivers(s: State, blocked: set<Channel>, m: Message, o: Outcome)
    ensures Delivers(s, FlushOne(s, blocked, m, o).0)
  {
    hide Remove, Bump;
  }

  lemma {:induction false} RemovedIs(q: seq<Message>, id: int)
    ensures forall m :: m in Removed(q, id) ==> m in q && m.id == id
  {
    if q != [] {
      RemovedIs(q[1..], id);
      assert q == [q[0]] + q[1..];
    }
  }

  lemma {:induction false} SettleDelivers(s: State, f: nat, ok: bool)
    requires Inv(s) && f in s.sends.flights
    ensures Delivers(s, Settle(s, f, ok))
  {
    var id := s.sends.flights[f].id;
    RemovedIs(s.queue, id);
    forall m | m in Removed(s.queue, id) && s.sends.Filed(f) ensures m.uid == s.sends.flights[f].uid {
      var i :| 0 <= i < |s.queue| && s.queue[i] == m;
      IndexHas(s.queue, i);
    }
    hide Remove, Removed, Bump, Index;
  }

  lemma {:induction false} NotifyDelivers(s: State, opts: Options, p: Push)
    ensures Delivers(s, Notify(s, opts, p))
  {
    hide Route, SendSMS, DueItems, OutCount;
    var uid := s.sends.nextUid;
    var s2 := s.(sends := s.sends.(nextUid := uid + 2));
    RouteDelivers(s2, opts, p, uid);
    var r := Route(s2, opts, p, uid).0;
    SendSMSDelivers(MarkKey(r, p.key), Resolved, p.key, uid + 1, p.now, p.rsms);
  }

  /** Direct sends count no queued message as sent. */
  ghost predicate DeliversMore(s: State, t: State) {
    && t.fates.sent == s.fates.sent && t.fates.stale == s.fates.stale && t.resolvedBefore == s.resolvedBefore
    && s.fates.handed <= t.fates.handed
    && forall u :: u in s.sends.delivered ==> u in t.sends.delivered
  }

  lemma {:induction false} EnqueueDelivers(
    s: State, channel: Channel, kind: Kind, key: string, uid: nat, now: int, o: Outcome)
    ensures DeliversMore(s, Enqueue(s, channel, kind, key, uid, now, o))
  {
    hide Trimmed, Overflow;
  }

  lemma {:induction false} SendSMSDelivers(s: State, kind: Kind, key: string, uid: nat, now: int, o: Outcome)
    ensures DeliversMore(s, SendSMS(s, kind, key, uid, now, o))
  {
    hide Enqueue;
    EnqueueDelivers(s, SMS, kind, key, uid, now, o);
  }

  lemma {:induction false} SendTelegramDelivers(
    s: State, opts: Options, kind: Kind, key: string, uid: nat, now: int, o: Outcome)
    ensures DeliversMore(s, SendTelegram(s, opts, kind, key, uid, now, o))
  {
    hide Enqueue;
    EnqueueDelivers(s.(failing := true), Telegram, kind, key, uid, now, PastDeadline);
    EnqueueDelivers(s.(failing := Health(s.failing, o)), Telegram, kind, key, uid, now, o);
  }

  lemma {:induction false} SendEitherDelivers(
    s: State, opts: Options, kind: Kind, key: string, uid: nat, now: int, tlg: Outcome, sms: Outcome)
    ensures DeliversMore(s, SendEither(s, opts, kind, key, uid, now, tlg, sms).0)
  {
    hide Enqueue, SendTelegram;
    SendTelegramDelivers(s, opts, kind, key, uid, now, tlg);
    var tried := !s.offline && opts.hasTelegram;
    var h := if tried then s.(failing := Health(s.failing, tlg)) else s;
    var c := if kind == Problem && sms.Abandoned? then h.(smsProblems := h.smsProblems + {key}) else h;
    EnqueueDelivers(h, Telegram, kind, key, uid, now, PastDeadline);
    EnqueueDelivers(c, Telegram, kind, key, uid, now, tlg);
    EnqueueDelivers(c.(failing := true), Telegram, kind, key, uid, now, PastDeadline);
  }

  lemma {:induction false} RouteDelivers(s: State, opts: Options, p: Push, uid: nat)
    ensures DeliversMore(s, Route(s, opts, p, uid).0)
  {
    hide DeliversMore, SendTelegram, SendEither, SendSMS;
    SendTelegramDelivers(s, opts, p.kind, p.key, uid, p.now, p.tlg);
    SendEitherDelivers(s, opts, p.kind, p.key, uid, p.now, p.tlg, p.sms);
    SendSMSDelivers(s, p.kind, p.key, uid, p.now, p.sms);
  }

  lemma {:induction false} NextDelivers(s: State, opts: Options, step: Step)
    requires Inv(s) && Enabled(s, step)
    ensures Delivers(s, Next(s, opts, step))
  {
    hide Inv, Notify, FlushAll, Settle, RenumberMarks, RenumberFlight, MoveMarks, DueItems, OutCount, NotBefore,
         Expired;
    match step
    case DoNotify(p) => NotifyDelivers(s, opts, p);
    case DoFlush(o, fb) => FlushDelivers(s, InitiallyBlocked(s, opts), s.queue, o);
    case DoMerge(_) =>
    case DoExpire(_) =>
    case DoSettle(f, ok) => SettleDelivers(s, f, ok);
    case DoForget(_) =>
    case DoSettleFallback(_, _) =>
    case DoRestoreSMS(_) =>
    case DoRestoreChannels(_) =>
    case DoSetOffline(_) =>
  }

  /** What is counted sent was delivered, once. */
  lemma {:induction false} SentWasDelivered(opts: Options, states: seq<State>, steps: seq<Step>, k: nat, m: Message)
    requires Run(opts, states, steps) && k < |states| && m in states[k].fates.sent
    ensures states[k].sends.delivered[m.uid] == 1
  {
    hide Next, Enabled;
    SentReachable(opts, states, steps, k);
    NeverSentTwice(opts, states, steps, k);
  }

  lemma {:induction false} SentReachable(opts: Options, states: seq<State>, steps: seq<Step>, k: nat)
    requires Run(opts, states, steps) && k < |states|
    ensures SentOK(states[k])
  {
    hide Next, Inv, Enabled;
    if k > 0 {
      SentReachable(opts, states, steps, k - 1);
      Reachable(opts, states, steps, k - 1);
      NextDelivers(states[k - 1], opts, steps[k - 1]);
    }
  }

  lemma {:induction false} FlushOneSpares(s: State, blocked: set<Channel>, i: nat, o: Outcome, v: nat)
    requires Inv(s) && i < |s.queue| && Spare(s, v)
    ensures Spare(FlushOne(s, blocked, s.queue[i], o).0, v)
  {
    var m := s.queue[i];
    IndexHas(s.queue, i);
    RemoveIndex(s.queue, m.id);
    BumpIndex(s.queue, m.id);
    hide Remove, Bump, Index, SendsOK;
  }

  lemma {:induction false} FlushSpares(
    s: State, blocked: set<Channel>, done: seq<Message>, pending: seq<Message>, o: int -> Outcome, v: nat)
    requires Inv(s) && s.queue == done + pending && Spare(s, v)
    ensures Spare(FlushAll(s, blocked, pending, o), v)
    decreases |pending|
  {
    hide Inv, Spare, FlushOne, Kept, Ascending;
    if pending != [] {
      QueueAscends(s);
      var r := o(pending[0].id);
      assert s.queue[|done|] == pending[0];
      FlushOneKeeps(s, blocked, |done|, r);
      FlushOneSpares(s, blocked, |done|, r, v);
      assert s.queue == done + [pending[0]] + pending[1..];
      FlushOneRest(s, blocked, done, pending[0], pending[1..], r);
      var (t, b) := FlushOne(s, blocked, pending[0], r);
      FlushSpares(t, b, done + Kept(s, blocked, pending[0], r), pending[1..], o, v);
    }
  }

  lemma {:induction false} QueueAscends(s: State)
    requires Inv(s)
    ensures Ascending(s.queue)
  {
  }

  lemma {:induction false} SelectSpares(s: State, r: seq<Message>, v: nat)
    requires Inv(s) && Spare(s, v) && Ascending(r) && forall m :: m in r ==> m in s.queue
    ensures Spare(s.(queue := r), v)
  {
    SelectedIndex(r, s.queue);
    hide Index, SendsOK;
  }

  lemma {:induction false} SettleSpares(s: State, f: nat, ok: bool, v: nat)
    requires Inv(s) && f in s.sends.flights && Spare(s, v)
    ensures Spare(Settle(s, f, ok), v)
  {
    var id := s.sends.flights[f].id;
    RemoveIn(s.queue, id);
    RemoveIndex(s.queue, id);
    BumpIndex(s.queue, id);
    hide Remove, Bump, Index, SendsOK, Removed;
  }

  lemma {:induction false} MergeSpares(s: State, stored: seq<Message>, v: nat)
    requires Inv(s) && FromStore(stored) && Spare(s, v)
    ensures Spare(Merge(s, stored), v)
  {
    hide SendsOK, Index, RenumberMarks, MoveMarks, FromStore, Trimmed, Overflow;
    var t := Merge(s, stored);
    var ix := Index(MergedQueue(s, stored));
    forall a | a in ix ensures ix[a] != v {
      var i := MergedAt(s, stored, a);
      if i >= |stored| { IndexHas(s.queue, i - |stored|); }
    }
    MergedAscending(s, stored);
    TrimmedIn(MergedQueue(s, stored));
    SelectedIndex(t.queue, MergedQueue(s, stored));
  }

  lemma {:induction false} TrimmedIn(q: seq<Message>)
    requires Ascending(q)
    ensures Ascending(Trimmed(q)) && forall m :: m in Trimmed(q) ==> m in q
  {
  }

  lemma {:induction false} NotifySpares(s: State, opts: Options, p: Push, v: nat)
    requires Inv(s) && Spare(s, v)
    ensures Spare(Notify(s, opts, p), v)
  {
    hide Inv, Route, Enqueue, DueItems, OutCount, Index;
    var uid := s.sends.nextUid;
    var s2 := s.(sends := s.sends.(nextUid := uid + 2));
    AllocateKeeps(s);
    RouteKeeps(s2, opts, p, uid);
    RouteSpares(s2, opts, p, uid, v);
    var r := Route(s2, opts, p, uid).0;
    MarkSpares(r, p.key);
    EnqueueSpares(MarkKey(r, p.key), SMS, Resolved, p.key, uid + 1, p.now, p.rsms, v);
  }

  lemma {:induction false} MarkSpares(s: State, key: string)
    requires Inv(s)
    ensures Inv(MarkKey(s, key))
  {
    hide SendsOK;
  }

  /** A message not queued, not delivered and with no send in progress stays so. */
  lemma {:induction false} NextSpares(s: State, opts: Options, step: Step, v: nat)
    requires Inv(s) && Enabled(s, step) && Spare(s, v)
    ensures Spare(Next(s, opts, step), v)
  {
    hide SendsOK, Index, Notify, FlushAll, Settle, Merge, DueItems, OutCount, NotBefore;
    match step
    case DoNotify(p) => NotifySpares(s, opts, p, v);
    case DoFlush(o, fb) =>
      assert s.queue == [] + s.queue;
      FlushSpares(s, InitiallyBlocked(s, opts), [], s.queue, o, v);
    case DoMerge(stored) => MergeSpares(s, stored, v);
    case DoExpire(cutoff) =>
      NotBeforeIn(s.queue, cutoff);
      SelectSpares(s, NotBefore(s.queue, cutoff), v);
    case DoSettle(f, ok) => SettleSpares(s, f, ok, v);
    case DoForget(_) =>
    case DoSettleFallback(_, _) =>
    case DoRestoreSMS(_) =>
    case DoRestoreChannels(_) =>
    case DoSetOffline(_) =>
  }

  lemma {:induction false} SpareStays(opts: Options, states: seq<State>, steps: seq<Step>, i: nat, k: nat, v: nat)
    requires Run(opts, states, steps) && i <= k < |states| && Spare(states[i], v)
    ensures Spare(states[k], v)
  {
    hide Next, Inv, Enabled, Spare;
    if i < k {
      SpareStays(opts, states, steps, i, k - 1, v);
      Reachable(opts, states, steps, k - 1);
      NextSpares(states[k - 1], opts, steps[k - 1], v);
    }
  }

  /** A message handed to OnDrop is delivered later only by a send of it that was in
      progress when it was handed over. */
  lemma {:induction false} HandedStaysUnsent(
    opts: Options, states: seq<State>, steps: seq<Step>, i: nat, k: nat, m: Message)
    requires Run(opts, states, steps) && i <= k < |states| && m in states[i].fates.handed
    requires states[i].sends.delivered[m.uid] == 0
    requires forall f :: f in states[i].sends.flights ==> states[i].sends.flights[f].uid != m.uid
    ensures states[k].sends.delivered[m.uid] == 0
  {
    hide Next, Enabled, SendsOK;
    HandedIsGone(opts, states, steps, i, m);
    SpareStays(opts, states, steps, i, k, m.uid);
  }

  lemma {:induction false} CountUp(q: seq<Message>, x: Message)
    requires Count(q, x) > 0
    ensures exists i :: 0 <= i < |q| && Core(q[i]) == x
  {
    if Core(q[0]) != x {
      CountUp(q[1..], x);
      var i :| 0 <= i < |q| - 1 && Core(q[1..][i]) == x;
      assert q[i + 1] == q[1..][i];
    }
  }

  /** A message handed over is among those queued once, and not queued now. */
  lemma {:induction false} HandedIsGone(opts: Options, states: seq<State>, steps: seq<Step>, k: nat, m: Message)
    requires Run(opts, states, steps) && k < |states| && m in states[k].fates.handed
    ensures m.uid < states[k].sends.nextUid
    ensures forall a :: a in Index(states[k].queue) ==> Index(states[k].queue)[a] != m.uid
  {
    hide Next, Enabled, SendsOK, Index, Count;
    FatesReachable(opts, states, steps, k);
    Reachable(opts, states, steps, k);
    var s, f := states[k], states[k].fates;
    var j :| 0 <= j < |f.handed| && f.handed[j] == m;
    CountSome(f.handed, j);
    assert BalancedAt(f, s.queue, Core(m));
    CountUp(f.ever, Core(m));
    var e :| 0 <= e < |f.ever| && Core(f.ever[e]) == Core(m);
    forall a | a in Index(s.queue) ensures Index(s.queue)[a] != m.uid {
      var i := IndexOnly(s.queue, a);
      IndexHas(s.queue, i);
      CountSome(s.queue, i);
      var x := Core(s.queue[i]);
      assert BalancedAt(f, s.queue, x);
      CountUp(f.ever, x);
      var g :| 0 <= g < |f.ever| && Core(f.ever[g]) == x;
      CountOnce(f.ever, e);
      assert e != g;
    }
  }

  // ---------------------------------------------------------------- stale messages

  /** What was dropped as stale was a PROBLEM queued for SMS of a key with a mark,
      and is gone for good. */
  ghost predicate StaleOK(s: State) {
    forall m :: m in s.fates.stale ==>
      Spare(s, m.uid) && m.channel == SMS && m.kind == Problem && m.key in s.resolvedBefore
  }

  lemma {:induction false} DroppedSpares(s: State, i: nat)
    requires Inv(s) && i < |s.queue| && s.queue[i].id !in s.sends.inflight
    ensures Spare(s.(queue := Remove(s.queue, s.queue[i].id)), s.queue[i].uid)
  {
    IndexHas(s.queue, i);
    RemoveIndex(s.queue, s.queue[i].id);
    hide Remove, Index;
  }

  lemma {:induction false} FlushOneStale(s: State, blocked: set<Channel>, i: nat, o: Outcome)
    requires Inv(s) && i < |s.queue| && StaleOK(s)
    ensures StaleOK(FlushOne(s, blocked, s.queue[i], o).0)
  {
    var m := s.queue[i];
    var t := FlushOne(s, blocked, m, o).0;
    if m.id !in s.sends.inflight { DroppedSpares(s, i); }
    forall x | x in s.fates.stale ensures Spare(t, x.uid) { FlushOneSpares(s, blocked, i, o, x.uid); }
    hide Remove, Bump, Index, SendsOK;
  }

  lemma {:induction false} FlushStale(
    s: State, blocked: set<Channel>, done: seq<Message>, pending: seq<Message>, o: int -> Outcome)
    requires Inv(s) && s.queue == done + pending && StaleOK(s)
    ensures StaleOK(FlushAll(s, blocked, pending, o))
    decreases |pending|
  {
    hide Inv, StaleOK, FlushOne, Kept, Ascending;
    if pending != [] {
      QueueAscends(s);
      var r := o(pending[0].id);
      assert s.queue[|done|] == pending[0];
      FlushOneKeeps(s, blocked, |done|, r);
      FlushOneStale(s, blocked, |done|, r);
      assert s.queue == done + [pending[0]] + pending[1..];
      FlushOneRest(s, blocked, done, pending[0], pending[1..], r);
      var (t, b) := FlushOne(s, blocked, pending[0], r);
      FlushStale(t, b, done + Kept(s, blocked, pending[0], r), pending[1..], o);
    }
  }

  /** No other step than a flush drops a message as stale, and no mark goes. */
  lemma {:induction false} OthersStale(s: State, opts: Options, step: Step)
    requires Enabled(s, step) && !step.DoFlush?
    ensures Next(s, opts, step).fates.stale == s.fates.stale
    ensures s.resolvedBefore.Keys <= Next(s, opts, step).resolvedBefore.Keys
  {
    hide Route, SendSMS, DueItems, OutCount, RenumberMarks, RenumberFlight, MovedMark, Remove, Bump, NotBefore,
         Expired, Removed;
    if step.DoNotify? {
      var p, uid := step.push, s.sends.nextUid;
      var s2 := s.(sends := s.sends.(nextUid := uid + 2));
      RouteDelivers(s2, opts, p, uid);
      SendSMSDelivers(MarkKey(Route(s2, opts, p, uid).0, p.key), Resolved, p.key, uid + 1, p.now, p.rsms);
    }
  }

  lemma {:induction false} NextStale(s: State, opts: Options, step: Step)
    requires Inv(s) && Enabled(s, step) && StaleOK(s)
    ensures StaleOK(Next(s, opts, step))
  {
    hide Inv, Spare, Next, FlushAll;
    if step.DoFlush? {
      assert s.queue == [] + s.queue;
      FlushStale(s, InitiallyBlocked(s, opts), [], s.queue, step.sends);
      FlushIs(s, opts, step);
      var u := FlushAll(s, InitiallyBlocked(s, opts), s.queue, step.sends);
      forall m | m in u.fates.stale ensures Spare(Next(s, opts, step), m.uid) {
        SpareFields(u, Next(s, opts, step), m.uid);
      }
    } else {
      OthersStale(s, opts, step);
      forall m | m in s.fates.stale ensures Spare(Next(s, opts, step), m.uid) { NextSpares(s, opts, step, m.uid); }
    }
  }

  /** The fallback after a flush sends SMS and logs them. */
  lemma {:induction false} FlushIs(s: State, opts: Options, step: Step)
    requires step.DoFlush?
    ensures var (t, u) := (Next(s, opts, step), FlushAll(s, InitiallyBlocked(s, opts), s.queue, step.sends));
            t == u.(smsProblems := t.smsProblems, log := t.log)
  {
    hide FlushAll, DueItems, OutCount;
  }

  lemma {:induction false} SpareFields(u: State, t: State, uid: nat)
    requires Spare(u, uid) && t == u.(smsProblems := t.smsProblems, log := t.log)
    ensures Spare(t, uid)
  {
  }

  lemma {:induction false} StaleReachable(opts: Options, states: seq<State>, steps: seq<Step>, k: nat)
    requires Run(opts, states, steps) && k < |states|
    ensures StaleOK(states[k])
  {
    hide Next, Inv, Enabled, Spare;
    if k > 0 {
      StaleReachable(opts, states, steps, k - 1);
      Reachable(opts, states, steps, k - 1);
      NextStale(states[k - 1], opts, steps[k - 1]);
    }
  }

  /** In every run a message dropped as stale is a PROBLEM of a resolved key, is never
      delivered and has no send in progress. */
  lemma {:induction false} StaleIsGone(opts: Options, states: seq<State>, steps: seq<Step>, k: nat, m: Message)
    requires Run(opts, states, steps) && k < |states| && m in states[k].fates.stale
    ensures m.kind == Problem && m.key in states[k].resolvedBefore && states[k].sends.delivered[m.uid] == 0
    ensures forall f :: f in states[k].sends.flights ==> states[k].sends.flights[f].uid != m.uid
  {
    hide Next, Enabled, Index;
    StaleReachable(opts, states, steps, k);
  }
}
