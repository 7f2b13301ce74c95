/** What one Notify call does with its message, whichever way it goes: it went out and
    is counted delivered, or it is queued, with a send still in progress filed. */
module NotifierNotify {
  import opened NotifierModel
  import opened NotifierRuns
  import opened NotifierFates

  // ---------------------------------------------------------------- what is tried

  /** Mode sms needs a sender; without one the message goes by Telegram. */
  predicate BySMSOnly(opts: Options, p: Push) { p.mode.ViaSMS? && opts.hasSMS }

  predicate TelegramTried(s: State, opts: Options, p: Push) {
    !BySMSOnly(opts, p) && !s.offline && opts.hasTelegram
  }

  /** The SMS is the message's own, or stands in for Telegram: that was not tried, or
      failed for another reason than the deadline both share. */
  predicate SMSTried(s: State, opts: Options, p: Push) {
    opts.hasSMS
    && (p.mode.ViaSMS?
        || (p.mode.ViaTelegramOrSMS?
            && !(TelegramTried(s, opts, p) && (p.tlg.Sent? || p.tlg.PastDeadline?))))
  }

  predicate WentOut(s: State, opts: Options, p: Push) {
    (TelegramTried(s, opts, p) && p.tlg.Sent?) || (SMSTried(s, opts, p) && p.sms.Sent?)
  }

  function OwnChannel(opts: Options, p: Push): Channel { if BySMSOnly(opts, p) then SMS else Telegram }

  /** The abandoned send is one on the channel the message is queued for. */
  predicate OwnHangs(s: State, opts: Options, p: Push) {
    if BySMSOnly(opts, p) then p.sms.Abandoned? else TelegramTried(s, opts, p) && p.tlg.Abandoned?
  }

  /** A RESOLVED also goes by SMS when its PROBLEM did and its own route used none. */
  predicate ExtraTried(s: State, opts: Options, p: Push) {
    && p.kind == Resolved && p.key in s.smsProblems && opts.hasSMS
    && !BySMSOnly(opts, p) && !(SMSTried(s, opts, p) && p.sms.Sent?)
  }

  /** The messages a Notify call queues: the message itself unless it went out, and
      the RESOLVED's extra SMS if that was tried and did not. */
  function OwnJoined(s: State, opts: Options, p: Push, uid: nat): seq<Message> {
    if WentOut(s, opts, p) then [] else [Message(s.nextID, uid, p.now, OwnChannel(opts, p), p.kind, p.key, 0)]
  }

  function ExtraJoined(s: State, opts: Options, p: Push, id: int, uid: nat): seq<Message> {
    if ExtraTried(s, opts, p) && !p.rsms.Sent? then [Message(id, uid, p.now, SMS, Resolved, p.key, 0)] else []
  }

  function OwnHung(s: State, opts: Options, p: Push, uid: nat): seq<Flight> {
    if !WentOut(s, opts, p) && OwnHangs(s, opts, p) then [Flight(s.nextID, uid)] else []
  }

  function ExtraHung(s: State, opts: Options, p: Push, id: int, uid: nat): seq<Flight> {
    if ExtraTried(s, opts, p) && p.rsms.Abandoned? then [Flight(id, uid)] else []
  }

  function Once(out: bool, uid: nat): multiset<nat> { if out then multiset{uid} else multiset{} }

  // ---------------------------------------------------------------- accounts

  function FileAll(d: Sends, hung: seq<Flight>): Sends {
    if hung == [] then d
    else
      var n := |hung| - 1;
      FileAll(d, hung[..n]).File(hung[n].id, hung[n].uid)
  }

  /** From s to t the messages `joined` were queued, oldest messages beyond the bound
      handed over, the sends `hung` filed, and those of `out` counted delivered. */
  ghost predicate Accounts(s: State, t: State, joined: seq<Message>, hung: seq<Flight>, out: multiset<nat>) {
    && t.fates.ever == s.fates.ever + joined && t.nextID == s.nextID + |joined|
    && t.fates.stale == s.fates.stale && t.fates.sent == s.fates.sent
    && HandedOver(s, t, joined)
    && Filed(s.sends, t.sends, hung) && t.sends.delivered == s.sends.delivered + out
  }

  ghost predicate HandedOver(s: State, t: State, joined: seq<Message>) {
    && s.fates.handed <= t.fates.handed
    && var gone := t.fates.handed[|s.fates.handed|..];
       && s.queue + joined == gone + t.queue
       && (joined == [] ==> gone == [])
       && (joined != [] ==> |t.queue| <= MAX_QUEUE)
       && (gone != [] ==> |t.queue| == MAX_QUEUE)
  }

  ghost predicate Filed(a: Sends, b: Sends, hung: seq<Flight>) {
    var d := FileAll(a, hung);
    b.inflight == d.inflight && b.flights == d.flights && b.nextFlight == d.nextFlight
  }

  lemma {:induction false} HandedJoin(s: State, t: State, u: State, a: seq<Message>, b: seq<Message>)
    requires HandedOver(s, t, a) && HandedOver(t, u, b)
    ensures HandedOver(s, u, a + b)
  {
    var n, m := |s.fates.handed|, |t.fates.handed|;
    var (x, y) := (t.fates.handed[n..], u.fates.handed[m..]);
    assert u.fates.handed[n..] == x + y;
    assert s.queue + (a + b) == (s.queue + a) + b;
    assert x + (t.queue + b) == (x + t.queue) + b;
    assert (x + y) + u.queue == x + (y + u.queue);
    if y == [] { assert y + u.queue == u.queue; }
  }

  lemma {:induction false} FiledJoin(a: Sends, b: Sends, c: Sends, x: seq<Flight>, y: seq<Flight>)
    requires Filed(a, b, x) && Filed(b, c, y)
    ensures Filed(a, c, x + y)
    decreases |y|
  {
    if y == [] {
      assert x + y == x;
    } else {
      var n := |y| - 1;
      FiledJoin(a, b, FileAll(b, y[..n]), x, y[..n]);
      assert (x + y)[..|x| + n] == x + y[..n];
    }
  }

  lemma {:induction false} AccountsJoin(s: State, t: State, u: State, a: seq<Message>, b: seq<Message>,
    x: seq<Flight>, y: seq<Flight>, p: multiset<nat>, q: multiset<nat>)
    requires Accounts(s, t, a, x, p) && Accounts(t, u, b, y, q)
    ensures Accounts(s, u, a + b, x + y, p + q)
  {
    hide HandedOver, Filed;
    HandedJoin(s, t, u, a, b);
    FiledJoin(s.sends, t.sends, u.sends, x, y);
  }

  /** The queue, what was handed over and the sends stay. */
  ghost predicate Beside(s: State, t: State) {
    && t.queue == s.queue && t.nextID == s.nextID && t.fates == s.fates
    && t.sends.(nextUid := 0, delivered := multiset{}) == s.sends.(nextUid := 0, delivered := multiset{})
  }

  lemma {:induction false} BesideAccounts(s: State, t: State, out: multiset<nat>)
    requires Beside(s, t) && t.sends.delivered == s.sends.delivered + out
    ensures Accounts(s, t, [], [], out)
  {
    assert s.queue + [] == [] + t.queue;
    assert t.fates.handed[|s.fates.handed|..] == [];
  }

  lemma {:induction false} EnqueueAccounts(
    s: State, channel: Channel, kind: Kind, key: string, uid: nat, now: int, o: Outcome)
    ensures Accounts(s, Enqueue(s, channel, kind, key, uid, now, o),
                     [Message(s.nextID, uid, now, channel, kind, key, 0)],
                     if o.Abandoned? then [Flight(s.nextID, uid)] else [], multiset{})
  {
    hide FileAll;
    var m := Message(s.nextID, uid, now, channel, kind, key, 0);
    var t := Enqueue(s, channel, kind, key, uid, now, o);
    TrimHands(s, t, m);
    FileOne(s.sends, Flight(s.nextID, uid));
    hide Trimmed, Overflow, HandedOver;
  }

  lemma {:induction false} TrimHands(s: State, t: State, m: Message)
    requires t.queue == Trimmed(s.queue + [m]) && t.fates.handed == s.fates.handed + Overflow(s.queue + [m])
    ensures HandedOver(s, t, [m])
  {
    var q := s.queue + [m];
    assert t.fates.handed[|s.fates.handed|..] == Overflow(q);
    assert q == Overflow(q) + Trimmed(q);
  }

  lemma {:induction false} FileOne(d: Sends, f: Flight)
    ensures FileAll(d, []) == d && FileAll(d, [f]) == d.File(f.id, f.uid)
  {
    assert [f][..0] == [];
  }

  lemma {:induction false} EnqueueAfter(
    s: State, t: State, channel: Channel, kind: Kind, key: string, uid: nat, now: int, o: Outcome)
    requires Beside(s, t) && t.sends.delivered == s.sends.delivered
    ensures Accounts(s, Enqueue(t, channel, kind, key, uid, now, o),
                     [Message(s.nextID, uid, now, channel, kind, key, 0)],
                     if o.Abandoned? then [Flight(s.nextID, uid)] else [], multiset{})
  {
    hide Enqueue, Accounts;
    var m := Message(s.nextID, uid, now, channel, kind, key, 0);
    var hung := if o.Abandoned? then [Flight(s.nextID, uid)] else [];
    BesideAccounts(s, t, multiset{});
    EnqueueAccounts(t, channel, kind, key, uid, now, o);
    AccountsJoin(s, t, Enqueue(t, channel, kind, key, uid, now, o), [], [m], [], hung, multiset{}, multiset{});
    assert [] + [m] == [m] && [] + hung == hung;
    NothingOut();
  }

  lemma {:induction false} NothingOut()
    ensures forall m: multiset<nat> :: multiset{} + m == m && m + multiset{} == m
  {
  }

  lemma {:induction false} TelegramAccounts(
    s: State, opts: Options, kind: Kind, key: string, uid: nat, now: int, o: Outcome)
    ensures var tried := !s.offline && opts.hasTelegram;
            Accounts(s, SendTelegram(s, opts, kind, key, uid, now, o),
                     if tried && o.Sent? then [] else [Message(s.nextID, uid, now, Telegram, kind, key, 0)],
                     if tried && o.Abandoned? then [Flight(s.nextID, uid)] else [], Once(tried && o.Sent?, uid))
  {
    hide Enqueue, Accounts, Health;
    EnqueueAfter(s, s.(failing := true), Telegram, kind, key, uid, now, PastDeadline);
    var h := s.(failing := Health(s.failing, o));
    EnqueueAfter(s, h, Telegram, kind, key, uid, now, o);
    BesideAccounts(s, h.(sends := h.sends.Deliver(uid)), multiset{uid});
  }

  lemma {:induction false} SMSAccounts(s: State, kind: Kind, key: string, uid: nat, now: int, o: Outcome)
    ensures Accounts(s, SendSMS(s, kind, key, uid, now, o),
                     if o.Sent? then [] else [Message(s.nextID, uid, now, SMS, kind, key, 0)],
                     if o.Abandoned? then [Flight(s.nextID, uid)] else [], Once(o.Sent?, uid))
  {
    hide Enqueue, Accounts;
    EnqueueAccounts(s, SMS, kind, key, uid, now, o);
    BesideAccounts(s, s.(sends := s.sends.Deliver(uid)), multiset{uid});
  }

  lemma {:induction false} EitherAccounts(s: State, opts: Options, p: Push, uid: nat)
    requires p.mode.ViaTelegramOrSMS? && opts.hasSMS
    ensures var (t, viaSMS) := SendEither(s, opts, p.kind, p.key, uid, p.now, p.tlg, p.sms);
            && Accounts(s, t, OwnJoined(s, opts, p, uid), OwnHung(s, opts, p, uid), Once(WentOut(s, opts, p), uid))
            && viaSMS == (SMSTried(s, opts, p) && p.sms.Sent?)
  {
    hide Enqueue, Accounts, Health;
    var (kind, key) := (p.kind, p.key);
    var tried := !s.offline && opts.hasTelegram;
    var h := if tried then s.(failing := Health(s.failing, p.tlg)) else s;
    var c := if kind == Problem && p.sms.Abandoned? then h.(smsProblems := h.smsProblems + {key}) else h;
    BesideAccounts(s, h.(sends := h.sends.Deliver(uid)), multiset{uid});
    EnqueueAfter(s, h, Telegram, kind, key, uid, p.now, PastDeadline);
    EnqueueAfter(s, c, Telegram, kind, key, uid, p.now, p.tlg);
    EnqueueAfter(s, c.(failing := true), Telegram, kind, key, uid, p.now, PastDeadline);
  }

  lemma {:induction false} RouteAccounts(s: State, opts: Options, p: Push, uid: nat)
    ensures var (t, viaSMS) := Route(s, opts, p, uid);
            && Accounts(s, t, OwnJoined(s, opts, p, uid), OwnHung(s, opts, p, uid), Once(WentOut(s, opts, p), uid))
            && viaSMS == (BySMSOnly(opts, p) || (SMSTried(s, opts, p) && p.sms.Sent?))
  {
    hide Accounts, SendTelegram, SendEither, SendSMS;
    TelegramAccounts(s, opts, p.kind, p.key, uid, p.now, p.tlg);
    SMSAccounts(s, p.kind, p.key, uid, p.now, p.sms);
    if p.mode.ViaTelegramOrSMS? {
      if opts.hasSMS { EitherAccounts(s, opts, p, uid); } else { EitherByTelegram(s, opts, p, uid); }
    }
  }

  lemma {:induction false} EitherByTelegram(s: State, opts: Options, p: Push, uid: nat)
    requires !opts.hasSMS
    ensures SendEither(s, opts, p.kind, p.key, uid, p.now, p.tlg, p.sms) ==
            (SendTelegram(s, opts, p.kind, p.key, uid, p.now, p.tlg), false)
  {
    hide SendTelegram;
  }

  // ---------------------------------------------------------------- health, keys and log

  /** Telegram's health after the call: a send that says something about it decides;
      a message left to Telegram that may not be tried counts as a failure. */
  predicate FailingAfter(s: State, opts: Options, p: Push) {
    if TelegramTried(s, opts, p) then
      if p.tlg.Sent? then false
      else s.failing || p.tlg == Failed(false) || p.tlg == Abandoned(false)
    else s.failing || (!BySMSOnly(opts, p) && !WentOut(s, opts, p))
  }

  /** A PROBLEM whose SMS in Telegram's stead hangs is not sent by SMS again. */
  predicate Claims(s: State, opts: Options, p: Push) {
    p.kind == Problem && !p.mode.ViaSMS? && SMSTried(s, opts, p) && p.sms.Abandoned?
  }

  lemma {:induction false} RouteRest(s: State, opts: Options, p: Push, uid: nat)
    ensures var t := Route(s, opts, p, uid).0;
            && t.failing == FailingAfter(s, opts, p)
            && t.smsProblems == s.smsProblems + (if Claims(s, opts, p) then {p.key} else {})
            && t.resolvedBefore == s.resolvedBefore && t.offline == s.offline && t.sends.nextUid == s.sends.nextUid
            && t.log == s.log + if WentOut(s, opts, p) then [] else [Queued(uid, p.key)]
  {
    hide Enqueue, SendEither;
    var h := s.(failing := Health(s.failing, p.tlg));
    EnqueueRest(s, SMS, p.kind, p.key, uid, p.now, p.sms);
    EnqueueRest(h, Telegram, p.kind, p.key, uid, p.now, p.tlg);
    EnqueueRest(s.(failing := true), Telegram, p.kind, p.key, uid, p.now, PastDeadline);
    if p.mode.ViaTelegramOrSMS? {
      if opts.hasSMS { EitherRest(s, opts, p, uid); } else { EitherByTelegram(s, opts, p, uid); }
    }
  }

  /** t is s but for the queue, the sends in progress and what is told of one message
      queued. */
  ghost predicate QueuedOnly(s: State, t: State, uid: nat, key: string) {
    && t.failing == s.failing && t.smsProblems == s.smsProblems && t.resolvedBefore == s.resolvedBefore
    && t.offline == s.offline && t.sends.nextUid == s.sends.nextUid && t.log == s.log + [Queued(uid, key)]
  }

  lemma {:induction false} EnqueueRest(
    s: State, channel: Channel, kind: Kind, key: string, uid: nat, now: int, o: Outcome)
    ensures QueuedOnly(s, Enqueue(s, channel, kind, key, uid, now, o), uid, key)
  {
    hide Trimmed, Overflow;
  }

  lemma {:induction false} EitherRest(s: State, opts: Options, p: Push, uid: nat)
    requires p.mode.ViaTelegramOrSMS? && opts.hasSMS
    ensures var t := SendEither(s, opts, p.kind, p.key, uid, p.now, p.tlg, p.sms).0;
            && t.failing == FailingAfter(s, opts, p)
            && t.smsProblems == s.smsProblems + (if Claims(s, opts, p) then {p.key} else {})
            && t.resolvedBefore == s.resolvedBefore && t.offline == s.offline && t.sends.nextUid == s.sends.nextUid
            && t.log == s.log + if WentOut(s, opts, p) then [] else [Queued(uid, p.key)]
  {
    hide Enqueue;
    var (kind, key) := (p.kind, p.key);
    var tried := !s.offline && opts.hasTelegram;
    var h := if tried then s.(failing := Health(s.failing, p.tlg)) else s;
    var c := if kind == Problem && p.sms.Abandoned? then h.(smsProblems := h.smsProblems + {key}) else h;
    EnqueueRest(h, Telegram, kind, key, uid, p.now, PastDeadline);
    EnqueueRest(c, Telegram, kind, key, uid, p.now, p.tlg);
    EnqueueRest(c.(failing := true), Telegram, kind, key, uid, p.now, PastDeadline);
  }

  /** What a Notify call writes into the log before the fallback. */
  function Written(s: State, opts: Options, p: Push, uid: nat): seq<Entry> {
    (if WentOut(s, opts, p) then [] else [Queued(uid, p.key)])
    + (if p.kind == Resolved then [Marked(p.key)] else [])
    + (if ExtraTried(s, opts, p) && !p.rsms.Sent? then [Queued(uid + 1, p.key)] else [])
  }

  function KeysBefore(s: State, opts: Options, p: Push): set<string> {
    s.smsProblems + (if Claims(s, opts, p) then {p.key} else {}) - if p.kind == Resolved then {p.key} else {}
  }

  ghost predicate Rest(s: State, opts: Options, p: Push, t: State) {
    var n := |OwnJoined(s, opts, p, s.sends.nextUid)|;
    && t.failing == FailingAfter(s, opts, p) && t.offline == s.offline
    && t.resolvedBefore == (if p.kind == Resolved then s.resolvedBefore[p.key := s.nextID + n] else s.resolvedBefore)
    && t.sends.nextUid == s.sends.nextUid + 2
  }

  /** The fallback that ends the call adds its SMS to the log and their keys to the
      SMS-sent set. */
  ghost predicate FallbackEnds(b: set<string>, log: seq<Entry>, t: State) {
    && log <= t.log
    && (forall e :: e in t.log[|log|..] ==> e.FallbackOut?)
    && forall k :: k in t.smsProblems <==> k in b || SentNow(t.log[|log|..], k)
  }

  ghost predicate SentNow(more: seq<Entry>, key: string) { exists e :: e in more && e.FallbackOut? && e.key == key }

  lemma {:induction false} FallbackIsBeside(s: State, opts: Options, fb: string -> Outcome)
    ensures var t := Fallback(s, opts, fb);
            && Beside(s, t) && t.sends == s.sends
            && t.failing == s.failing && t.offline == s.offline && t.resolvedBefore == s.resolvedBefore
            && FallbackEnds(s.smsProblems, s.log, t)
  {
    hide DueItems, OutCount;
    var t := Fallback(s, opts, fb);
    if opts.hasSMS {
      var due := DueItems(s);
      var out := due[..OutCount(due, fb)];
      var more := t.log[|s.log|..];
      assert more == OutEntries(out);
      forall k ensures k in Keys(out) <==> SentNow(more, k) {
        if k in Keys(out) {
          var i :| 0 <= i < |out| && out[i].key == k;
          assert more[i] in more;
        }
      }
    } else {
      assert t.log[|s.log|..] == [];
    }
  }

  // ---------------------------------------------------------------- one Notify call

  /** The state in which the fallback finds the queue. */
  function Routed(s: State, opts: Options, p: Push): State {
    var uid := s.sends.nextUid;
    var (r, viaSMS) := Route(s.(sends := s.sends.(nextUid := uid + 2)), opts, p, uid);
    if p.kind == Resolved then ResolvedBySMS(r, opts, p.key, uid + 1, p.now, viaSMS, p.rsms) else r
  }

  ghost predicate AccountsOf(s: State, opts: Options, p: Push, t: State) {
    var uid := s.sends.nextUid;
    var own := OwnJoined(s, opts, p, uid);
    var id := s.nextID + |own|;
    Accounts(s, t, own + ExtraJoined(s, opts, p, id, uid + 1),
             OwnHung(s, opts, p, uid) + ExtraHung(s, opts, p, id, uid + 1),
             Once(WentOut(s, opts, p), uid) + Once(ExtraTried(s, opts, p) && p.rsms.Sent?, uid + 1))
  }

  lemma {:induction false} AllocateAside(s: State, opts: Options, p: Push, uid: nat)
    ensures var s2 := s.(sends := s.sends.(nextUid := uid + 2));
            && Accounts(s, s2, [], [], multiset{})
            && OwnJoined(s2, opts, p, uid) == OwnJoined(s, opts, p, uid)
            && OwnHung(s2, opts, p, uid) == OwnHung(s, opts, p, uid)
            && WentOut(s2, opts, p) == WentOut(s, opts, p) && ExtraTried(s2, opts, p) == ExtraTried(s, opts, p)
            && SMSTried(s2, opts, p) == SMSTried(s, opts, p) && Claims(s2, opts, p) == Claims(s, opts, p)
            && FailingAfter(s2, opts, p) == FailingAfter(s, opts, p)
  {
    hide Accounts;
    BesideAccounts(s, s.(sends := s.sends.(nextUid := uid + 2)), multiset{});
  }

  lemma {:induction false} RoutedAccounts(s: State, opts: Options, p: Push)
    ensures AccountsOf(s, opts, p, Routed(s, opts, p))
  {
    hide Accounts, Route, SendSMS, SMSTried, WentOut, OwnJoined, OwnHung, Claims;
    var uid := s.sends.nextUid;
    var s2 := s.(sends := s.sends.(nextUid := uid + 2));
    AllocateAside(s, opts, p, uid);
    RouteAccounts(s2, opts, p, uid);
    RouteRest(s2, opts, p, uid);
    var (r, viaSMS) := Route(s2, opts, p, uid);
    var (own, hung, out) := (OwnJoined(s, opts, p, uid), OwnHung(s, opts, p, uid), Once(WentOut(s, opts, p), uid));
    NothingOut();
    assert [] + own == own && [] + hung == hung && own + [] == own && hung + [] == hung;
    AccountsJoin(s, s2, r, [], own, [], hung, multiset{}, out);
    if p.kind == Resolved {
      NotClaimed(s, opts, p);
      ResolvedAccounts(r, opts, p, uid + 1, viaSMS);
      var id := s.nextID + |own|;
      AccountsID(s, r, own, hung, out);
      AccountsJoin(s, r, ResolvedBySMS(r, opts, p.key, uid + 1, p.now, viaSMS, p.rsms),
                   own, ExtraJoined(s, opts, p, id, uid + 1), hung, ExtraHung(s, opts, p, id, uid + 1),
                   out, Once(ExtraTried(s, opts, p) && p.rsms.Sent?, uid + 1));
    }
  }

  lemma {:induction false} NotClaimed(s: State, opts: Options, p: Push)
    requires p.kind == Resolved
    ensures !Claims(s, opts, p)
  {
  }

  lemma {:induction false} AccountsID(s: State, t: State, joined: seq<Message>, hung: seq<Flight>, out: multiset<nat>)
    requires Accounts(s, t, joined, hung, out)
    ensures t.nextID == s.nextID + |joined|
  {
  }

  lemma {:induction false} ResolvedAccounts(r: State, opts: Options, p: Push, uid: nat, viaSMS: bool)
    ensures var tried := p.key in r.smsProblems && !viaSMS && opts.hasSMS;
            Accounts(r, ResolvedBySMS(r, opts, p.key, uid, p.now, viaSMS, p.rsms),
                     if tried && !p.rsms.Sent? then [Message(r.nextID, uid, p.now, SMS, Resolved, p.key, 0)] else [],
                     if tried && p.rsms.Abandoned? then [Flight(r.nextID, uid)] else [],
                     Once(tried && p.rsms.Sent?, uid))
  {
    hide Accounts, SendSMS;
    var m := MarkKey(r, p.key);
    BesideAccounts(r, m, multiset{});
    SMSAccounts(m, Resolved, p.key, uid, p.now, p.rsms);
    var joined := if p.rsms.Sent? then [] else [Message(r.nextID, uid, p.now, SMS, Resolved, p.key, 0)];
    var hung := if p.rsms.Abandoned? then [Flight(r.nextID, uid)] else [];
    var out := Once(p.rsms.Sent?, uid);
    NothingOut();
    assert [] + joined == joined && [] + hung == hung;
    AccountsJoin(r, m, SendSMS(m, Resolved, p.key, uid, p.now, p.rsms), [], joined, [], hung, multiset{}, out);
  }

  /** For every message, route and outcome: what a Notify call queues, files, counts
      delivered and hands over. Nothing is lost in between: a message that did not
      go out is queued. */
  lemma {:induction false} NotifyAccounts(s: State, opts: Options, p: Push)
    ensures AccountsOf(s, opts, p, Notify(s, opts, p))
  {
    hide Accounts, Route, ResolvedBySMS, Fallback, ExtraTried, WentOut, OwnJoined, OwnHung;
    var t := Routed(s, opts, p);
    RoutedAccounts(s, opts, p);
    assert Notify(s, opts, p) == Fallback(t, opts, p.fb);
    FallbackIsBeside(t, opts, p.fb);
    var joined, hung, out := AccountsGive(s, opts, p, t);
    BesideAccounts(t, Fallback(t, opts, p.fb), multiset{});
    AccountsJoin(s, t, Fallback(t, opts, p.fb), joined, [], hung, [], out, multiset{});
    NothingOut();
    assert joined + [] == joined && hung + [] == hung;
  }

  lemma {:induction false} AccountsGive(s: State, opts: Options, p: Push, t: State)
    returns (joined: seq<Message>, hung: seq<Flight>, out: multiset<nat>)
    requires AccountsOf(s, opts, p, t)
    ensures Accounts(s, t, joined, hung, out)
    ensures forall u :: Accounts(s, u, joined, hung, out) ==> AccountsOf(s, opts, p, u)
  {
    hide Accounts, WentOut, ExtraTried;
    var uid := s.sends.nextUid;
    var own := OwnJoined(s, opts, p, uid);
    var id := s.nextID + |own|;
    joined := own + ExtraJoined(s, opts, p, id, uid + 1);
    hung := OwnHung(s, opts, p, uid) + ExtraHung(s, opts, p, id, uid + 1);
    out := Once(WentOut(s, opts, p), uid) + Once(ExtraTried(s, opts, p) && p.rsms.Sent?, uid + 1);
  }

  lemma {:induction false} ResolvedRest(r: State, opts: Options, p: Push, uid: nat, viaSMS: bool)
    ensures var t := ResolvedBySMS(r, opts, p.key, uid, p.now, viaSMS, p.rsms);
            && t.failing == r.failing && t.offline == r.offline && t.sends.nextUid == r.sends.nextUid
            && t.resolvedBefore == r.resolvedBefore[p.key := r.nextID] && t.smsProblems == r.smsProblems - {p.key}
            && t.log == r.log + [Marked(p.key)]
                        + if p.key in r.smsProblems && !viaSMS && opts.hasSMS && !p.rsms.Sent? then [Queued(uid, p.key)]
                          else []
  {
    hide Enqueue;
    EnqueueRest(MarkKey(r, p.key), SMS, Resolved, p.key, uid, p.now, p.rsms);
  }

  /** What a Notify call leaves besides: Telegram's health, the RESOLVED's mark right
      behind the message if that was queued, and the keys sent by SMS. */
  lemma {:induction false} NotifyTells(s: State, opts: Options, p: Push)
    ensures var t := Notify(s, opts, p);
            Rest(s, opts, p, t) && FallbackEnds(KeysBefore(s, opts, p), s.log + Written(s, opts, p, s.sends.nextUid), t)
  {
    hide Accounts, Route, ResolvedBySMS, Fallback, SMSTried, WentOut, OwnJoined, Claims, FailingAfter, FallbackEnds;
    var uid := s.sends.nextUid;
    var s2 := s.(sends := s.sends.(nextUid := uid + 2));
    AllocateAside(s, opts, p, uid);
    RouteAccounts(s2, opts, p, uid);
    RouteRest(s2, opts, p, uid);
    var (r, viaSMS) := Route(s2, opts, p, uid);
    AccountsID(s2, r, OwnJoined(s2, opts, p, uid), OwnHung(s2, opts, p, uid), Once(WentOut(s2, opts, p), uid));
    if p.kind == Resolved {
      NotClaimed(s, opts, p);
      ResolvedRest(r, opts, p, uid + 1, viaSMS);
    }
    var t := Routed(s, opts, p);
    assert t.log == s.log + Written(s, opts, p, uid);
    assert t.smsProblems == KeysBefore(s, opts, p);
    FallbackIsBeside(t, opts, p.fb);
    assert Notify(s, opts, p) == Fallback(t, opts, p.fb);
  }

  // ---------------------------------------------------------------- every message

  /** Over every run: a message that Notify was given is counted delivered then, or it
      joins the messages each of which has one fate. */
  lemma {:induction false} PushHasAFate(opts: Options, states: seq<State>, steps: seq<Step>, i: nat, k: nat)
    requires Run(opts, states, steps) && i < k < |states| && steps[i].DoNotify?
    ensures var (s, p) := (states[i], steps[i].push);
            if WentOut(s, opts, p) then states[k].sends.delivered[s.sends.nextUid] == 1
            else exists j :: 0 <= j < |states[k].fates.ever| && IsPush(states[k].fates.ever[j], s, opts, p)
  {
    hide Next, Enabled, WentOut, SendsOK, Notify, Accounts;
    var (s, p, t) := (states[i], steps[i].push, states[i + 1]);
    NotifyAccounts(s, opts, p);
    PushJoins(s, opts, p);
    NextIsNotify(s, opts, steps[i]);
    EverGrows(opts, states, steps, i + 1, k);
    NeverSentTwice(opts, states, steps, k);
    assert t == Notify(s, opts, p);
    if !WentOut(s, opts, p) {
      var n := |s.fates.ever|;
      assert IsPush(states[k].fates.ever[n], s, opts, p);
    }
  }

  ghost predicate IsPush(m: Message, s: State, opts: Options, p: Push) {
    Core(m) == Message(0, s.sends.nextUid, p.now, OwnChannel(opts, p), p.kind, p.key, 0)
  }

  lemma {:induction false} NextIsNotify(s: State, opts: Options, step: Step)
    requires step.DoNotify?
    ensures Next(s, opts, step) == Notify(s, opts, step.push)
  {
  }

  lemma {:induction false} PushJoins(s: State, opts: Options, p: Push)
    requires AccountsOf(s, opts, p, Notify(s, opts, p))
    ensures var t := Notify(s, opts, p);
            if WentOut(s, opts, p) then t.sends.delivered[s.sends.nextUid] > 0
            else |t.fates.ever| > |s.fates.ever| && IsPush(t.fates.ever[|s.fates.ever|], s, opts, p)
  {
    hide Notify, WentOut, ExtraTried, HandedOver, Filed;
  }

  /** What was ever queued stays on record, and so does what was delivered. */
  lemma {:induction false} EverGrows(opts: Options, states: seq<State>, steps: seq<Step>, i: nat, k: nat)
    requires Run(opts, states, steps) && i <= k < |states|
    ensures states[i].fates.ever <= states[k].fates.ever
    ensures forall u :: u in states[i].sends.delivered ==> u in states[k].sends.delivered
  {
    hide Next, Enabled, Inv;
    if i < k {
      EverGrows(opts, states, steps, i, k - 1);
      Reachable(opts, states, steps, k - 1);
      NextDelivers(states[k - 1], opts, steps[k - 1]);
      NextEver(states[k - 1], opts, steps[k - 1]);
    }
  }

  lemma {:induction false} NextEver(s: State, opts: Options, step: Step)
    requires Enabled(s, step)
    ensures s.fates.ever <= Next(s, opts, step).fates.ever
  {
    hide Notify, FlushAll, RenumberMarks, RenumberFlight, MoveMarks, DueItems, OutCount, NotBefore, Expired, Remove,
         Removed, Bump, Trimmed, Overflow;
    match step
    case DoNotify(p) =>
      NotifyAccounts(s, opts, p);
      AccountsEver(s, opts, p);
    case DoFlush(o, fb) => FlushEver(s, InitiallyBlocked(s, opts), s.queue, o);
    case _ =>
  }

  lemma {:induction false} AccountsEver(s: State, opts: Options, p: Push)
    requires AccountsOf(s, opts, p, Notify(s, opts, p))
    ensures s.fates.ever <= Notify(s, opts, p).fates.ever
  {
    hide Notify, HandedOver, Filed;
  }

  lemma {:induction false} FlushEver(s: State, blocked: set<Channel>, pending: seq<Message>, o: int -> Outcome)
    ensures FlushAll(s, blocked, pending, o).fates.ever == s.fates.ever
    ensures FlushAll(s, blocked, pending, o).fates.handed == s.fates.handed
    decreases |pending|
  {
    if pending != [] {
      var (t, b) := FlushOne(s, blocked, pending[0], o(pending[0].id));
      FlushEver(t, b, pending[1..], o);
      hide Remove, Bump, Stale;
    }
  }
}
