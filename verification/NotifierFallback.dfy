/** The SMS fallback over whole runs: when a key gets a second SMS within its streak,
    and that none is of a PROBLEM that has resolved. */
module NotifierFallback {
  import opened NotifierModel
  import opened NotifierRuns
  import opened NotifierMerge

  // ---------------------------------------------------------------- history

  /** The key was marked resolved (or its condition ended) after message uid was
      queued; a stored message was queued before anything in this process. */
  ghost predicate MarkedSince(log: seq<Entry>, uid: nat, key: string) {
    if log == [] then false
    else
      match log[|log| - 1]
      case Marked(k) => k == key || MarkedSince(log[..|log| - 1], uid, key)
      case Queued(u, _) => u != uid && MarkedSince(log[..|log| - 1], uid, key)
      case _ => MarkedSince(log[..|log| - 1], uid, key)
  }

  /** A fallback SMS of the key is out since its last mark, and the key was not
      given back since. */
  ghost predicate OutSince(log: seq<Entry>, key: string) {
    if log == [] then false
    else
      match log[|log| - 1]
      case Marked(k) => k != key && OutSince(log[..|log| - 1], key)
      case GaveBack(k) => k != key && OutSince(log[..|log| - 1], key)
      case FallbackOut(_, k) => k == key || OutSince(log[..|log| - 1], key)
      case _ => OutSince(log[..|log| - 1], key)
  }

  /** Every fallback SMS in the log was the first since its key was last marked or
      given back, for a PROBLEM queued after the last mark. */
  ghost predicate GoodLog(log: seq<Entry>) {
    log != [] ==>
      var n := |log| - 1;
      GoodLog(log[..n]) &&
      (log[n].FallbackOut? ==> !OutSince(log[..n], log[n].key) && !MarkedSince(log[..n], log[n].uid, log[n].key))
  }

  ghost predicate NewUid(log: seq<Entry>, uid: nat) {
    forall i :: 0 <= i < |log| && log[i].Queued? ==> log[i].uid < uid
  }

  ghost predicate Verdict(s: State, m: Message) {
    MarkedSince(s.log, m.uid, m.key) <==> (m.key in s.resolvedBefore && m.id < s.resolvedBefore[m.key])
  }

  ghost predicate VerdictsOK(s: State) {
    forall i :: 0 <= i < |s.queue| ==> Verdict(s, s.queue[i])
  }

  ghost predicate SentOK(log: seq<Entry>, keys: set<string>) {
    forall k :: OutSince(log, k) ==> k in keys
  }

  /** The keys with a mark are those some entry marked. */
  ghost predicate KeysOK(log: seq<Entry>, marks: map<string, int>) {
    forall k, u :: NewUid(log, u) ==> (k in marks <==> MarkedSince(log, u, k))
  }

  ghost predicate BelowNext(marks: map<string, int>, nextID: int) {
    forall k :: k in marks ==> marks[k] <= nextID
  }

  ghost predicate LogInv(s: State) {
    && VerdictsOK(s) && SentOK(s.log, s.smsProblems) && KeysOK(s.log, s.resolvedBefore)
    && GoodLog(s.log) && NewUid(s.log, s.sends.nextUid) && BelowNext(s.resolvedBefore, s.nextID)
  }

  // ---------------------------------------------------------------- one entry

  lemma {:induction false} Appended(log: seq<Entry>, e: Entry)
    ensures (log + [e])[..|log|] == log && (log + [e])[|log|] == e
  {
  }

  lemma {:induction false} QueuedEntry(s: State, m: Message)
    requires LogInv(s) && m.id == s.nextID && m.uid < s.sends.nextUid
    requires forall i :: 0 <= i < |s.queue| ==> s.queue[i].uid != m.uid
    ensures LogInv(s.(queue := s.queue + [m], nextID := s.nextID + 1, log := s.log + [Queued(m.uid, m.key)]))
  {
    var t := s.(queue := s.queue + [m], nextID := s.nextID + 1, log := s.log + [Queued(m.uid, m.key)]);
    Appended(s.log, Queued(m.uid, m.key));
    forall i | 0 <= i < |t.queue| ensures Verdict(t, t.queue[i]) {
      if i < |s.queue| { assert Verdict(s, s.queue[i]); }
    }
    assert KeysOK(t.log, t.resolvedBefore) by {
      forall k, u | NewUid(t.log, u) ensures k in t.resolvedBefore <==> MarkedSince(t.log, u, k) {
        NewUidPrefix(s.log, Queued(m.uid, m.key), u);
        assert t.log[|s.log|].uid < u;
      }
    }
  }

  lemma {:induction false} NewUidPrefix(log: seq<Entry>, e: Entry, u: nat)
    requires NewUid(log + [e], u)
    ensures NewUid(log, u)
  {
    forall i | 0 <= i < |log| && log[i].Queued? ensures log[i].uid < u { assert (log + [e])[i] == log[i]; }
  }

  lemma {:induction false} MarkedEntry(s: State, key: string)
    requires LogInv(s) && QueueOK(s.queue, s.nextID)
    ensures LogInv(MarkKey(s, key))
  {
    var t := MarkKey(s, key);
    Appended(s.log, Marked(key));
    forall i | 0 <= i < |t.queue| ensures Verdict(t, t.queue[i]) { assert Verdict(s, s.queue[i]); }
    forall k, u | NewUid(t.log, u) ensures k in t.resolvedBefore <==> MarkedSince(t.log, u, k) {
      NewUidPrefix(s.log, Marked(key), u);
    }
  }

  lemma {:induction false} GaveBackEntry(s: State, key: string)
    requires LogInv(s)
    ensures LogInv(SettleFallback(s, key, false))
  {
    var t := SettleFallback(s, key, false);
    Appended(s.log, GaveBack(key));
    forall i | 0 <= i < |t.queue| ensures Verdict(t, t.queue[i]) { assert Verdict(s, s.queue[i]); }
    if key in s.smsProblems {
      forall k, u | NewUid(t.log, u) ensures k in t.resolvedBefore <==> MarkedSince(t.log, u, k) {
        NewUidPrefix(s.log, GaveBack(key), u);
      }
    }
  }

  // ---------------------------------------------------------------- dropping

  /** The message is one of q, but for its attempts. */
  ghost predicate Copied(m: Message, q: seq<Message>) {
    exists j :: 0 <= j < |q| && q[j] == m.(attempts := q[j].attempts)
  }

  ghost predicate CopiedFrom(r: seq<Message>, q: seq<Message>) {
    forall i :: 0 <= i < |r| ==> Copied(r[i], q)
  }

  lemma {:induction false} InCopied(m: Message, q: seq<Message>)
    requires m in q
    ensures Copied(m, q)
  {
    var j :| 0 <= j < |q| && q[j] == m;
    assert q[j] == m.(attempts := q[j].attempts);
  }

  /** Messages may leave the queue, keys may enter the SMS-sent set, and attempts
      and identities may grow. */
  lemma {:induction false} ShrinkKeeps(s: State, t: State)
    requires LogInv(s) && t.log == s.log && t.resolvedBefore == s.resolvedBefore
    requires t.nextID >= s.nextID && t.sends.nextUid >= s.sends.nextUid && s.smsProblems <= t.smsProblems
    requires CopiedFrom(t.queue, s.queue)
    ensures LogInv(t)
  {
    forall i | 0 <= i < |t.queue| ensures Verdict(t, t.queue[i]) {
      assert Copied(t.queue[i], s.queue);
      var j :| 0 <= j < |s.queue| && s.queue[j] == t.queue[i].(attempts := s.queue[j].attempts);
      assert Verdict(s, s.queue[j]);
    }
  }

  lemma {:induction false} SelectedKeeps(s: State, t: State)
    requires LogInv(s) && t.log == s.log && t.resolvedBefore == s.resolvedBefore
    requires t.nextID >= s.nextID && t.sends.nextUid >= s.sends.nextUid && s.smsProblems <= t.smsProblems
    requires forall m :: m in t.queue ==> m in s.queue
    ensures LogInv(t)
  {
    forall m | m in t.queue ensures Copied(m, s.queue) { InCopied(m, s.queue); }
    ShrinkKeeps(s, t);
  }

  // ---------------------------------------------------------------- steps

  lemma {:induction false} EnqueueLogs(
    s: State, channel: Channel, kind: Kind, key: string, uid: nat, now: int, o: Outcome)
    requires Inv(s) && LogInv(s) && Spare(s, uid)
    ensures LogInv(Enqueue(s, channel, kind, key, uid, now, o))
  {
    var m := Message(s.nextID, uid, now, channel, kind, key, 0);
    forall i | 0 <= i < |s.queue| ensures s.queue[i].uid != uid { IndexHas(s.queue, i); }
    QueuedEntry(s, m);
    var t := s.(queue := s.queue + [m], nextID := s.nextID + 1, log := s.log + [Queued(uid, key)]);
    hide LogInv, Inv, Spare;
    SelectedKeeps(t, Enqueue(s, channel, kind, key, uid, now, o));
  }

  lemma {:induction false} SendTelegramLogs(
    s: State, opts: Options, kind: Kind, key: string, uid: nat, now: int, o: Outcome)
    requires Inv(s) && LogInv(s) && Spare(s, uid)
    ensures LogInv(SendTelegram(s, opts, kind, key, uid, now, o))
  {
    hide QueueOK, SendsOK, Enqueue, VerdictsOK, SentOK, KeysOK;
    var h := s.(failing := Health(s.failing, o));
    assert LogInv(h) && LogInv(s.(failing := true)) && LogInv(h.(sends := h.sends.Deliver(uid))) by { FieldsKeep(s); }
    EnqueueLogs(s.(failing := true), Telegram, kind, key, uid, now, PastDeadline);
    EnqueueLogs(h, Telegram, kind, key, uid, now, o);
  }

  lemma {:induction false} FieldsKeep(s: State)
    requires LogInv(s)
    ensures forall f, d, keys :: d == s.sends || d.nextUid >= s.sends.nextUid ==> s.smsProblems <= keys ==>
              LogInv(s.(failing := f, sends := d, smsProblems := keys))
  {
    forall f, d, keys | (d == s.sends || d.nextUid >= s.sends.nextUid) && s.smsProblems <= keys
      ensures LogInv(s.(failing := f, sends := d, smsProblems := keys))
    {
      SelectedKeeps(s, s.(failing := f, sends := d, smsProblems := keys));
    }
  }

  lemma {:induction false} SendSMSLogs(s: State, kind: Kind, key: string, uid: nat, now: int, o: Outcome)
    requires Inv(s) && LogInv(s) && Spare(s, uid)
    ensures LogInv(SendSMS(s, kind, key, uid, now, o))
  {
    hide QueueOK, SendsOK, Enqueue, VerdictsOK, SentOK, KeysOK;
    FieldsKeep(s);
    EnqueueLogs(s, SMS, kind, key, uid, now, o);
  }

  lemma {:induction false} SendEitherLogs(
    s: State, opts: Options, kind: Kind, key: string, uid: nat, now: int, tlg: Outcome, sms: Outcome)
    requires Inv(s) && LogInv(s) && Spare(s, uid)
    ensures LogInv(SendEither(s, opts, kind, key, uid, now, tlg, sms).0)
  {
    hide QueueOK, SendsOK, Enqueue, LogInv, SendTelegram, Fresh;
    SendTelegramLogs(s, opts, kind, key, uid, now, tlg);
    var tried := !s.offline && opts.hasTelegram;
    var h := if tried then s.(failing := Health(s.failing, tlg)) else s;
    var c := if kind == Problem && sms.Abandoned? then h.(smsProblems := h.smsProblems + {key}) else h;
    FieldsKeep(s);
    assert h == s.(failing := h.failing, sends := s.sends, smsProblems := s.smsProblems);
    assert c == s.(failing := c.failing, sends := s.sends, smsProblems := c.smsProblems);
    assert c.(failing := true) == s.(failing := true, sends := s.sends, smsProblems := c.smsProblems);
    assert LogInv(h) && LogInv(c) && LogInv(c.(failing := true));
    EnqueueLogs(h, Telegram, kind, key, uid, now, PastDeadline);
    EnqueueLogs(c, Telegram, kind, key, uid, now, tlg);
    EnqueueLogs(c.(failing := true), Telegram, kind, key, uid, now, PastDeadline);
    var d := h.sends.Deliver(uid);
    assert h.(sends := d) == s.(failing := h.failing, sends := d, smsProblems := s.smsProblems);
  }

  lemma {:induction false} RouteLogs(s: State, opts: Options, p: Push, uid: nat)
    requires Inv(s) && LogInv(s) && Spare(s, uid)
    ensures LogInv(Route(s, opts, p, uid).0)
  {
    hide Inv, LogInv, Spare, SendTelegram, SendEither, SendSMS;
    match p.mode
    case ViaSMS =>
      if opts.hasSMS {
        SendSMSLogs(s, p.kind, p.key, uid, p.now, p.sms);
      } else {
        SendTelegramLogs(s, opts, p.kind, p.key, uid, p.now, p.tlg);
      }
    case ViaTelegramOrSMS => SendEitherLogs(s, opts, p.kind, p.key, uid, p.now, p.tlg, p.sms);
    case ViaTelegram => SendTelegramLogs(s, opts, p.kind, p.key, uid, p.now, p.tlg);
  }

  lemma {:induction false} ResolvedLogs(
    s: State, opts: Options, key: string, uid: nat, now: int, viaSMS: bool, o: Outcome)
    requires Inv(s) && LogInv(s) && Spare(s, uid)
    ensures LogInv(ResolvedBySMS(s, opts, key, uid, now, viaSMS, o))
  {
    hide SendsOK, Fresh, LogInv, SendSMS;
    MarkedEntry(s, key);
    SendSMSLogs(MarkKey(s, key), Resolved, key, uid, now, o);
  }

  // ---------------------------------------------------------------- flush

  lemma {:induction false} RemovedIn(q: seq<Message>, id: int)
    ensures forall m :: m in Remove(q, id) ==> m in q
  {
    if q != [] {
      RemovedIn(q[1..], id);
      assert q == [q[0]] + q[1..];
    }
  }

  /** What a flush leaves: copies of queued messages, and every mark in place. */
  ghost predicate Flushed(s: State, t: State) {
    && t.log == s.log && t.resolvedBefore == s.resolvedBefore && t.nextID == s.nextID
    && t.sends.nextUid == s.sends.nextUid && t.smsProblems == s.smsProblems
    && CopiedFrom(t.queue, s.queue)
  }

  lemma {:induction false} SelfCopied(q: seq<Message>, id: int)
    ensures CopiedFrom(q, q) && CopiedFrom(Bump(q, id), q) && CopiedFrom(Remove(q, id), q)
  {
    forall m | m in q ensures Copied(m, q) { InCopied(m, q); }
    RemovedIn(q, id);
    var r := Remove(q, id);
    forall i | 0 <= i < |r| ensures Copied(r[i], q) { assert r[i] in q; }
    var b := Bump(q, id);
    forall i | 0 <= i < |b| ensures Copied(b[i], q) { assert q[i] == b[i].(attempts := q[i].attempts); }
  }

  lemma {:induction false} FlushOneFlushed(s: State, blocked: set<Channel>, m: Message, o: Outcome)
    ensures Flushed(s, FlushOne(s, blocked, m, o).0)
  {
    hide CopiedFrom, Remove, Bump, FlushOne;
    SelfCopied(s.queue, m.id);
    FlushOneFields(s, blocked, m, o);
  }

  lemma {:induction false} FlushOneFields(s: State, blocked: set<Channel>, m: Message, o: Outcome)
    ensures var t := FlushOne(s, blocked, m, o).0;
            && t.log == s.log && t.resolvedBefore == s.resolvedBefore && t.nextID == s.nextID
            && t.sends.nextUid == s.sends.nextUid && t.smsProblems == s.smsProblems
            && (t.queue == s.queue || t.queue == Remove(s.queue, m.id) || t.queue == Bump(s.queue, m.id))
  {
    hide Remove, Bump, Health, Stale, Track;
    if m.channel !in blocked && m.id !in s.sends.inflight && !Stale(s, m) && !o.Sent? {
      var h := if m.channel == Telegram then s.(failing := Health(s.failing, o)) else s;
      TrackFields(h.(queue := Bump(h.queue, m.id)), m.id, m.uid, o);
    }
  }

  lemma {:induction false} TrackFields(s: State, id: int, uid: nat, o: Outcome)
    ensures var t := Track(s, id, uid, o);
            t == s.(sends := t.sends) && t.sends.nextUid == s.sends.nextUid
  {
  }

  lemma {:induction false} FlushedTransitive(s: State, t: State, u: State)
    requires Flushed(s, t) && Flushed(t, u)
    ensures Flushed(s, u)
  {
    forall i | 0 <= i < |u.queue| ensures Copied(u.queue[i], s.queue) {
      assert Copied(u.queue[i], t.queue);
      var j :| 0 <= j < |t.queue| && t.queue[j] == u.queue[i].(attempts := t.queue[j].attempts);
      assert Copied(t.queue[j], s.queue);
      var k :| 0 <= k < |s.queue| && s.queue[k] == t.queue[j].(attempts := s.queue[k].attempts);
      assert s.queue[k] == u.queue[i].(attempts := s.queue[k].attempts);
    }
  }

  lemma {:induction false} FlushAllFlushed(s: State, blocked: set<Channel>, pending: seq<Message>, o: int -> Outcome)
    ensures Flushed(s, FlushAll(s, blocked, pending, o))
    decreases |pending|
  {
    if pending == [] {
      SelfCopied(s.queue, 0);
    } else {
      hide FlushOne, Flushed;
      var r := o(pending[0].id);
      var (t, b) := FlushOne(s, blocked, pending[0], r);
      FlushOneFlushed(s, blocked, pending[0], r);
      FlushAllFlushed(t, b, pending[1..], o);
      FlushedTransitive(s, t, FlushAll(t, b, pending[1..], o));
    }
  }

  // ---------------------------------------------------------------- fallback

  /** Due messages are queued, of distinct keys, not marked since and not sent
      since. */
  ghost predicate DueOK(s: State, due: seq<Message>) {
    && (forall a :: 0 <= a < |due| ==> due[a].key !in s.smsProblems && !MarkedSince(s.log, due[a].uid, due[a].key))
    && (forall a, b :: 0 <= a < b < |due| ==> due[a].key != due[b].key)
  }

  ghost predicate DueAt(s: State, i: nat, m: Message) {
    exists j :: i <= j < |s.queue| && s.queue[j] == m && Due(s, j)
  }

  lemma {:induction false} DueFromAt(s: State, i: nat)
    requires i <= |s.queue|
    ensures forall a :: 0 <= a < |DueFrom(s, i)| ==> DueAt(s, i, DueFrom(s, i)[a])
    decreases |s.queue| - i
  {
    if i < |s.queue| {
      DueFromAt(s, i + 1);
      var due, rest := DueFrom(s, i), DueFrom(s, i + 1);
      forall a | 0 <= a < |due| ensures DueAt(s, i, due[a]) {
        if Due(s, i) && a == 0 {
          assert s.queue[i] == due[a];
        } else {
          var b := if Due(s, i) then a - 1 else a;
          assert due[a] == rest[b] && DueAt(s, i + 1, rest[b]);
        }
      }
    }
  }

  /** No two due messages share a key: the earlier one has a later problem. */
  lemma {:induction false} DueFromDistinct(s: State, i: nat)
    requires i <= |s.queue|
    ensures forall a, b :: 0 <= a < b < |DueFrom(s, i)| ==> DueFrom(s, i)[a].key != DueFrom(s, i)[b].key
    decreases |s.queue| - i
  {
    if i < |s.queue| {
      DueFromDistinct(s, i + 1);
      DueFromAt(s, i + 1);
      var rest := DueFrom(s, i + 1);
      if Due(s, i) {
        forall a | 0 <= a < |rest| ensures rest[a].key != s.queue[i].key {
          assert DueAt(s, i + 1, rest[a]);
          var j :| i + 1 <= j < |s.queue| && s.queue[j] == rest[a] && Due(s, j);
          assert !Later(s.queue[j], s.queue[i].key);
        }
      }
    }
  }

  lemma {:induction false} DueFromOK(s: State)
    requires VerdictsOK(s)
    ensures DueOK(s, DueFrom(s, 0))
  {
    DueFromAt(s, 0);
    DueFromDistinct(s, 0);
    var due := DueFrom(s, 0);
    forall a | 0 <= a < |due|
      ensures due[a].key !in s.smsProblems && !MarkedSince(s.log, due[a].uid, due[a].key)
    {
      assert DueAt(s, 0, due[a]);
      var j :| 0 <= j < |s.queue| && s.queue[j] == due[a] && Due(s, j);
      assert Verdict(s, s.queue[j]);
    }
  }

  lemma {:induction false} SentEntry(log: seq<Entry>, e: Entry)
    requires e.FallbackOut?
    ensures forall k :: OutSince(log + [e], k) <==> OutSince(log, k) || k == e.key
    ensures forall u, k :: MarkedSince(log + [e], u, k) <==> MarkedSince(log, u, k)
    ensures GoodLog(log + [e]) <==> GoodLog(log) && !OutSince(log, e.key) && !MarkedSince(log, e.uid, e.key)
  {
    Appended(log, e);
  }

  /** The log while the fallback goes through its due messages. */
  lemma {:induction false} FallbackEntries(s: State, due: seq<Message>)
    requires DueOK(s, due) && SentOK(s.log, s.smsProblems) && GoodLog(s.log)
    ensures var log := s.log + OutEntries(due);
            && GoodLog(log)
            && (forall k :: OutSince(log, k) <==> OutSince(s.log, k) || k in Keys(due))
            && (forall u, k :: MarkedSince(log, u, k) <==> MarkedSince(s.log, u, k))
    decreases |due|
  {
    hide GoodLog, OutSince, MarkedSince;
    if due == [] {
      assert s.log + OutEntries(due) == s.log;
    } else {
      var n := |due| - 1;
      FallbackEntries(s, due[..n]);
      var log := s.log + OutEntries(due[..n]);
      var e := FallbackOut(due[n].uid, due[n].key);
      assert s.log + OutEntries(due) == log + [e];
      SentEntry(log, e);
      assert due[n].key !in Keys(due[..n]);
      assert Keys(due) == Keys(due[..n]) + {due[n].key};
    }
  }

  lemma {:induction false} FallbackLogs(s: State, opts: Options, fb: string -> Outcome)
    requires LogInv(s)
    ensures LogInv(Fallback(s, opts, fb))
  {
    hide DueFrom, Due, GoodLog, OutSince, MarkedSince;
    if opts.hasSMS {
      var due := DueItems(s);
      DueFromOK(s);
      var n := OutCount(due, fb);
      FallbackEntries(s, due[..n]);
      var t := Fallback(s, opts, fb);
      var entries := OutEntries(due[..n]);
      assert t.log == s.log + entries;
      forall u | NewUid(t.log, u) ensures NewUid(s.log, u) {
        forall i | 0 <= i < |s.log| && s.log[i].Queued? ensures s.log[i].uid < u { assert t.log[i] == s.log[i]; }
      }
      forall i | 0 <= i < |t.queue| ensures Verdict(t, t.queue[i]) { assert Verdict(s, s.queue[i]); }
    }
  }

  // ---------------------------------------------------------------- merge

  /** Stored rows are older than every mark, and change no verdict. */
  lemma {:induction false} StoredEntriesKeep(log: seq<Entry>, rows: seq<Message>)
    requires GoodLog(log)
    ensures var more := log + StoredEntries(rows);
            && GoodLog(more)
            && (forall k :: OutSince(more, k) <==> OutSince(log, k))
            && (forall u, k :: MarkedSince(more, u, k) <==> MarkedSince(log, u, k))
            && (forall u :: NewUid(more, u) <==> NewUid(log, u))
    decreases |rows|
  {
    if rows == [] {
      assert log + StoredEntries(rows) == log;
    } else {
      var n := |rows| - 1;
      StoredEntriesKeep(log, rows[..n]);
      var more := log + StoredEntries(rows[..n]);
      var e := Entry.Stored(rows[n].uid, rows[n].key);
      assert log + StoredEntries(rows) == more + [e];
      StoredEntry(more, e);
    }
  }

  lemma {:induction false} StoredEntry(log: seq<Entry>, e: Entry)
    requires e.Stored?
    ensures forall k :: OutSince(log + [e], k) <==> OutSince(log, k)
    ensures forall u, k :: MarkedSince(log + [e], u, k) <==> MarkedSince(log, u, k)
    ensures GoodLog(log + [e]) <==> GoodLog(log)
    ensures forall u :: NewUid(log + [e], u) <==> NewUid(log, u)
  {
    Appended(log, e);
    forall u ensures NewUid(log + [e], u) <==> NewUid(log, u) {
      if NewUid(log + [e], u) { NewUidPrefix(log, e, u); }
    }
  }

  lemma {:induction false} StoredVerdict(s: State, stored: seq<Message>, at: nat, m: Message)
    requires LogInv(s) && FromStore(stored) && at < |stored| && m == stored[at].(uid := s.sends.nextUid + at)
    ensures MarkedSince(s.log, m.uid, m.key) <==>
            (m.key in Merge(s, stored).resolvedBefore && m.id < Merge(s, stored).resolvedBefore[m.key])
  {
    hide RenumberSends, MovedMark, GoodLog, SentOK, VerdictsOK;
    assert NewUid(s.log, m.uid);
    MergedLength(s, stored);
    if m.key in s.resolvedBefore { StoredLieBeforeMarks(s, stored, at, m.key); }
  }

  lemma {:induction false} MemoryVerdict(s: State, stored: seq<Message>, i: nat, m: Message)
    requires LogInv(s) && Ascending(s.queue) && i < |s.queue| && m == s.queue[i].(id := Top(stored) + 1 + i)
    ensures MarkedSince(s.log, m.uid, m.key) <==>
            (m.key in Merge(s, stored).resolvedBefore && m.id < Merge(s, stored).resolvedBefore[m.key])
  {
    hide RenumberSends, MovedMark, GoodLog, SentOK;
    assert Verdict(s, s.queue[i]);
    MergedLength(s, stored);
    if m.key in s.resolvedBefore {
      MovedMarkSeparates(s.queue, Top(stored), Merge(s, stored).nextID, s.resolvedBefore[m.key], i);
    }
  }

  lemma {:induction false} MergeVerdicts(s: State, stored: seq<Message>, t: State)
    requires Inv(s) && LogInv(s) && FromStore(stored) && t == Merge(s, stored)
    requires forall u, k :: MarkedSince(t.log, u, k) <==> MarkedSince(s.log, u, k)
    ensures VerdictsOK(t)
  {
    hide SendsOK, Merge, LogInv;
    forall j | 0 <= j < |t.queue| ensures Verdict(t, t.queue[j]) {
      MergedLength(s, stored);
      MergedLayout(s, stored, j);
      var at := Cut(s, stored) + j;
      if at < |stored| {
        StoredVerdict(s, stored, at, t.queue[j]);
      } else {
        MemoryVerdict(s, stored, at - |stored|, t.queue[j]);
      }
    }
  }

  lemma {:induction false} MovedMarkBelow(q: seq<Message>, top: int, nextID: int, mark: int)
    requires nextID > top + |q|
    ensures MovedMark(q, top, nextID, mark) <= nextID
  {
  }

  lemma {:induction false} MergeLogs(s: State, stored: seq<Message>)
    requires Inv(s) && LogInv(s) && FromStore(stored)
    ensures LogInv(Merge(s, stored))
  {
    var t := Merge(s, stored);
    var rows := Identified(stored, s.sends.nextUid);
    StoredEntriesKeep(s.log, rows);
    assert t.log == s.log + StoredEntries(rows);
    MergeVerdicts(s, stored, t);
    hide Inv, VerdictsOK, GoodLog, RenumberSends, MovedMark;
    forall k | k in t.resolvedBefore ensures t.resolvedBefore[k] <= t.nextID {
      MovedMarkBelow(s.queue, Top(stored), t.nextID, s.resolvedBefore[k]);
    }
    assert KeysOK(t.log, t.resolvedBefore);
    assert NewUid(t.log, t.sends.nextUid);
  }

  // ---------------------------------------------------------------- runs

  lemma {:induction false} AllocateLogs(s: State)
    requires LogInv(s)
    ensures LogInv(s.(sends := s.sends.(nextUid := s.sends.nextUid + 2)))
  {
    SelectedKeeps(s, s.(sends := s.sends.(nextUid := s.sends.nextUid + 2)));
  }

  /** A Notify call after its own delivery: the RESOLVED's extra SMS, then the
      fallback. */
  lemma {:induction false} AfterRouteLogs(r: State, opts: Options, p: Push, uid: nat, viaSMS: bool)
    requires Inv(r) && LogInv(r) && Spare(r, uid)
    ensures LogInv(Fallback(if p.kind == Resolved then ResolvedBySMS(r, opts, p.key, uid, p.now, viaSMS, p.rsms) else r,
                            opts, p.fb))
  {
    hide Inv, LogInv, Spare, ResolvedBySMS, Fallback;
    ResolvedLogs(r, opts, p.key, uid, p.now, viaSMS, p.rsms);
    FallbackLogs(r, opts, p.fb);
    FallbackLogs(ResolvedBySMS(r, opts, p.key, uid, p.now, viaSMS, p.rsms), opts, p.fb);
  }

  lemma {:induction false} NotifyLogs(s: State, opts: Options, p: Push)
    requires Inv(s) && LogInv(s)
    ensures LogInv(Notify(s, opts, p))
  {
    hide Inv, LogInv, Fresh, Route, ResolvedBySMS, Fallback;
    var uid := s.sends.nextUid;
    var s2 := s.(sends := s.sends.(nextUid := uid + 2));
    AllocateKeeps(s);
    AllocateLogs(s);
    RouteKeeps(s2, opts, p, uid);
    RouteSpares(s2, opts, p, uid, uid + 1);
    RouteLogs(s2, opts, p, uid);
    var (r, viaSMS) := Route(s2, opts, p, uid);
    AfterRouteLogs(r, opts, p, uid + 1, viaSMS);
  }

  lemma {:induction false} SettleFlushed(s: State, f: nat, ok: bool)
    requires f in s.sends.flights
    ensures Flushed(s, Settle(s, f, ok))
  {
    hide CopiedFrom;
    SelfCopied(s.queue, s.sends.flights[f].id);
  }

  lemma {:induction false} NextLogs(s: State, opts: Options, step: Step)
    requires Inv(s) && LogInv(s) && Enabled(s, step)
    ensures LogInv(Next(s, opts, step))
  {
    var t := Next(s, opts, step);
    match step
    case DoNotify(p) => NotifyLogs(s, opts, p);
    case DoFlush(o, fb) =>
      var u := FlushAll(s, InitiallyBlocked(s, opts), s.queue, o);
      FlushAllFlushed(s, InitiallyBlocked(s, opts), s.queue, o);
      ShrinkKeeps(s, u);
      FallbackLogs(u, opts, fb);
    case DoMerge(stored) => MergeLogs(s, stored);
    case DoExpire(cutoff) =>
      NotBeforeIn(s.queue, cutoff);
      SelectedKeeps(s, t);
    case DoSettle(f, ok) =>
      SettleFlushed(s, f, ok);
      ShrinkKeeps(s, t);
    case DoForget(key) => MarkedEntry(s, key);
    case DoSettleFallback(key, _) => GaveBackEntry(s, key);
    case DoRestoreSMS(keys) => SelectedKeeps(s, t);
    case DoRestoreChannels(_) => SelectedKeeps(s, t);
    case DoSetOffline(_) => SelectedKeeps(s, t);
  }

  lemma {:induction false} LogReachable(opts: Options, states: seq<State>, steps: seq<Step>, k: nat)
    requires Run(opts, states, steps) && k < |states|
    ensures LogInv(states[k])
  {
    if k > 0 {
      LogReachable(opts, states, steps, k - 1);
      Reachable(opts, states, steps, k - 1);
      NextLogs(states[k - 1], opts, steps[k - 1]);
    }
  }

  lemma {:induction false} GoodAt(log: seq<Entry>, j: nat)
    requires GoodLog(log) && j < |log| && log[j].FallbackOut?
    ensures !OutSince(log[..j], log[j].key) && !MarkedSince(log[..j], log[j].uid, log[j].key)
    decreases |log|
  {
    if j < |log| - 1 {
      GoodAt(log[..|log| - 1], j);
      assert log[..|log| - 1][..j] == log[..j];
    }
  }

  lemma {:induction false} SentThenFreed(log: seq<Entry>, i: nat, key: string) returns (m: nat)
    requires i < |log| && log[i].FallbackOut? && log[i].key == key && !OutSince(log, key)
    ensures i < m < |log| && (log[m] == Marked(key) || log[m] == GaveBack(key))
    decreases |log|
  {
    var n := |log| - 1;
    if log[n] == Marked(key) || log[n] == GaveBack(key) { m := n; } else { m := SentThenFreed(log[..n], i, key); }
  }

  lemma {:induction false} MarkedThenQueued(log: seq<Entry>, m: nat, uid: nat, key: string) returns (i: nat)
    requires m < |log| && log[m] == Marked(key) && !MarkedSince(log, uid, key)
    ensures m < i < |log| && log[i].Queued? && log[i].uid == uid
    decreases |log|
  {
    var n := |log| - 1;
    if log[n].Queued? && log[n].uid == uid { i := n; } else { i := MarkedThenQueued(log[..n], m, uid, key); }
  }

  /** Between two fallback SMS of a key there is a RESOLVED or an end of its
      condition, across merges, or the late failure of an abandoned SMS of the key
      that gave it back. */
  lemma {:induction false} OneFallbackPerStreak(
    opts: Options, states: seq<State>, steps: seq<Step>, k: nat, i: nat, j: nat)
    requires Run(opts, states, steps) && k < |states|
    requires i < j < |states[k].log| && states[k].log[i].FallbackOut? && states[k].log[j].FallbackOut?
    requires states[k].log[i].key == states[k].log[j].key
    ensures exists m :: i < m < j && Frees(states[k].log[m], states[k].log[i].key)
  {
    LogReachable(opts, states, steps, k);
    var log := states[k].log;
    GoodAt(log, j);
    var m := SentThenFreed(log[..j], i, log[i].key);
    assert Frees(log[m], log[i].key);
  }

  /** A fallback SMS is never of a PROBLEM whose RESOLVED came after it: once a key
      has a mark, the message was queued in this process after the mark. */
  lemma {:induction false} FallbackNeverResolved(
    opts: Options, states: seq<State>, steps: seq<Step>, k: nat, m: nat, j: nat)
    requires Run(opts, states, steps) && k < |states|
    requires m < j < |states[k].log| && states[k].log[j].FallbackOut?
    requires states[k].log[m] == Marked(states[k].log[j].key)
    ensures exists i :: m < i < j && states[k].log[i].Queued? && states[k].log[i].uid == states[k].log[j].uid
  {
    LogReachable(opts, states, steps, k);
    var log := states[k].log;
    GoodAt(log, j);
    var i := MarkedThenQueued(log[..j], m, log[j].uid, log[j].key);
    assert log[i].Queued? && log[i].uid == log[j].uid;
  }

  // ---------------------------------------------------------------- a second SMS

  ghost predicate Frees(e: Entry, key: string) { e == Marked(key) || e == GaveBack(key) }

  /** A fallback SMS of the key is out in its streak: since its last mark. */
  ghost predicate OutInStreak(log: seq<Entry>, key: string) {
    log != [] &&
    var n := |log| - 1;
    || (log[n].FallbackOut? && log[n].key == key)
    || (log[n] != Marked(key) && OutInStreak(log[..n], key))
  }

  /** The key was given back after its last fallback SMS and its last mark. */
  ghost predicate GivenBack(log: seq<Entry>, key: string) {
    log != [] &&
    var n := |log| - 1;
    || log[n] == GaveBack(key)
    || (log[n] != Marked(key) && !(log[n].FallbackOut? && log[n].key == key) && GivenBack(log[..n], key))
  }

  lemma {:induction false} SentOrGivenBack(log: seq<Entry>, key: string)
    requires OutInStreak(log, key)
    ensures OutSince(log, key) <==> !GivenBack(log, key)
  {
    var n := |log| - 1;
    if !(log[n].FallbackOut? && log[n].key == key) { SentOrGivenBack(log[..n], key); }
  }

  /** The SMS is out: it was sent, or hangs and may yet arrive. */
  predicate Out(o: Outcome) { o.Sent? || o.Abandoned? }

  /** The message at i is a PROBLEM queued for Telegram, the last news of its key on
      it, not marked resolved since it was queued, and its key did not go by SMS. */
  ghost predicate DueByLog(s: State, i: nat)
    requires i < |s.queue|
  {
    var m := s.queue[i];
    && m.channel == Telegram && m.kind == Problem && m.key !in s.smsProblems
    && !MarkedSince(s.log, m.uid, m.key)
    && forall j :: i < j < |s.queue| ==> !NewsOf(s.queue[j], m.key)
  }

  predicate NewsOf(m: Message, key: string) {
    m.channel == Telegram && m.key == key && (m.kind == Problem || m.kind == Resolved)
  }

  /** The message at i is due and its SMS is out; whatever is due before it was sent. */
  ghost predicate TurnByLog(s: State, fb: string -> Outcome, i: nat, key: string) {
    && i < |s.queue| && DueByLog(s, i) && s.queue[i].key == key
    && Out(fb(key)) && forall j :: 0 <= j < i && DueByLog(s, j) ==> fb(s.queue[j].key).Sent?
  }

  lemma {:induction false} DueMeans(s: State, i: nat)
    requires VerdictsOK(s) && i < |s.queue|
    ensures Due(s, i) <==> DueByLog(s, i)
  {
    hide MarkedSince;
    assert Verdict(s, s.queue[i]);
    forall j | i < j < |s.queue| ensures Later(s.queue[j], s.queue[i].key) <==> NewsOf(s.queue[j], s.queue[i].key) {}
  }

  lemma {:induction false} TurnMeans(s: State, fb: string -> Outcome, key: string)
    requires VerdictsOK(s)
    ensures (exists i :: Turn(s, fb, i, key)) <==> exists i :: TurnByLog(s, fb, i, key)
  {
    hide Due, DueByLog;
    forall i: nat | i < |s.queue| ensures Due(s, i) <==> DueByLog(s, i) { DueMeans(s, i); }
    forall i: nat ensures Turn(s, fb, i, key) <==> TurnByLog(s, fb, i, key) {}
  }

  /** The message at i is due and its SMS is out; whatever is due before it was sent. */
  ghost predicate Turn(s: State, fb: string -> Outcome, i: nat, key: string) {
    && i < |s.queue| && Due(s, i) && s.queue[i].key == key
    && Out(fb(key)) && forall j :: 0 <= j < i && Due(s, j) ==> fb(s.queue[j].key).Sent?
  }

  /** The fallback puts an SMS of the key out. */
  ghost predicate SendsKey(s: State, opts: Options, fb: string -> Outcome, key: string) {
    exists e :: e in Fallback(s, opts, fb).log[|s.log|..] && e.FallbackOut? && e.key == key
  }

  /** The sent ones of queue[i..]: those whose turn comes without a failure since i. */
  lemma {:induction false} SentFrom(s: State, fb: string -> Outcome, i: nat, key: string)
    requires i <= |s.queue|
    ensures key in Keys(DueFrom(s, i)[..OutCount(DueFrom(s, i), fb)]) <==>
            SomeTurn(s, fb, i, key)
    decreases |s.queue| - i
  {
    hide Due, TurnFrom, Keys, OutCount, SomeTurn;
    var due := DueFrom(s, i);
    if i == |s.queue| {
      NoKeys();
      NoTurn(s, fb, key);
    } else {
      SentFrom(s, fb, i + 1, key);
      var rest := DueFrom(s, i + 1);
      if !Due(s, i) {
        assert due == rest;
        TurnSkips(s, fb, i, i + 1, key);
      } else {
        assert due == [s.queue[i]] + rest;
        TurnTakes(s, fb, i, i + 1, key);
        SentKeys(s.queue[i], rest, fb);
      }
    }
  }

  ghost predicate SomeTurn(s: State, fb: string -> Outcome, i: nat, key: string) {
    exists n :: i <= n < |s.queue| && TurnFrom(s, fb, i, n, key)
  }

  lemma {:induction false} NoTurn(s: State, fb: string -> Outcome, key: string)
    ensures !SomeTurn(s, fb, |s.queue|, key) && OutCount([], fb) == 0
  {
  }

  lemma {:induction false} NoKeys()
    ensures Keys([]) == {}
  {
  }

  lemma {:induction false} SentKeys(m: Message, rest: seq<Message>, fb: string -> Outcome)
    ensures var due := [m] + rest;
            Keys(due[..OutCount(due, fb)]) ==
            if fb(m.key).Sent? then {m.key} + Keys(rest[..OutCount(rest, fb)])
            else if fb(m.key).Abandoned? then {m.key}
            else {}
  {
    hide Keys;
    var due := [m] + rest;
    assert due[1..] == rest && rest[..0] == [];
    NoKeys();
    if Out(fb(m.key)) {
      KeysFirst(due, OutCount(due, fb));
    } else {
      assert due[..0] == [];
    }
  }

  ghost predicate TurnFrom(s: State, fb: string -> Outcome, i: nat, n: nat, key: string) {
    && n < |s.queue| && Due(s, n) && s.queue[n].key == key
    && Out(fb(key)) && forall j :: i <= j < n && Due(s, j) ==> fb(s.queue[j].key).Sent?
  }

  lemma {:induction false} KeysFirst(due: seq<Message>, n: nat)
    requires 0 < n <= |due|
    ensures Keys(due[..n]) == {due[0].key} + Keys(due[1..][..n - 1])
  {
    var a, b := due[..n], due[1..][..n - 1];
    forall k | k in Keys(a) ensures k == due[0].key || k in Keys(b) {
      var i :| 0 <= i < n && a[i].key == k;
      if i > 0 { assert b[i - 1].key == k; }
    }
    forall k | k in Keys(b) ensures k in Keys(a) {
      var i :| 0 <= i < n - 1 && b[i].key == k;
      assert a[i + 1].key == k;
    }
    assert a[0].key in Keys(a);
  }

  lemma {:induction false} TurnSkips(s: State, fb: string -> Outcome, i: nat, next: nat, key: string)
    requires i < |s.queue| && !Due(s, i) && next == i + 1
    ensures SomeTurn(s, fb, i, key) <==> SomeTurn(s, fb, next, key)
  {
    hide Due;
    forall n: nat | i <= n < |s.queue| && TurnFrom(s, fb, i, n, key)
      ensures next <= n && TurnFrom(s, fb, next, n, key) {}
    forall n: nat | next <= n < |s.queue| && TurnFrom(s, fb, next, n, key) ensures TurnFrom(s, fb, i, n, key) {}
  }

  lemma {:induction false} TurnTakes(s: State, fb: string -> Outcome, i: nat, next: nat, key: string)
    requires i < |s.queue| && Due(s, i) && next == i + 1
    ensures SomeTurn(s, fb, i, key) <==>
            (Out(fb(key)) && s.queue[i].key == key) || (fb(s.queue[i].key).Sent? && SomeTurn(s, fb, next, key))
  {
    hide Due, Out;
    if Out(fb(key)) && s.queue[i].key == key { assert TurnFrom(s, fb, i, i, key); }
    if fb(s.queue[i].key).Sent? {
      forall n: nat | next <= n < |s.queue| && TurnFrom(s, fb, next, n, key) ensures TurnFrom(s, fb, i, n, key) {}
    }
    forall n: nat | i <= n < |s.queue| && TurnFrom(s, fb, i, n, key)
      ensures n == i || (fb(s.queue[i].key).Sent? && TurnFrom(s, fb, next, n, key)) {}
  }

  /** Which keys the fallback puts out. */
  lemma {:induction false} FallbackSends(s: State, opts: Options, fb: string -> Outcome, key: string)
    ensures SendsKey(s, opts, fb, key) <==> opts.hasSMS && s.failing && exists i :: Turn(s, fb, i, key)
  {
    hide Due, DueFrom;
    var t := Fallback(s, opts, fb);
    if opts.hasSMS && s.failing {
      SentFrom(s, fb, 0, key);
      var sent := DueItems(s)[..OutCount(DueItems(s), fb)];
      assert t.log[|s.log|..] == OutEntries(sent);
      if key in Keys(sent) {
        var i :| 0 <= i < |sent| && sent[i].key == key;
        assert OutEntries(sent)[i] in OutEntries(sent);
      }
      forall i: nat ensures Turn(s, fb, i, key) <==> 0 <= i < |s.queue| && TurnFrom(s, fb, 0, i, key) {}
    } else {
      assert t.log[|s.log|..] == [];
    }
  }

  /** The exact condition of a second SMS within a streak: in any reachable state the
      fallback of a flush puts out a key already out in its streak exactly when the
      key was given back since, Telegram is failing, and the key's message is due
      again and comes to its turn. */
  lemma {:induction false} SecondInStreak(
    opts: Options, states: seq<State>, steps: seq<Step>, k: nat, o: int -> Outcome, fb: string -> Outcome, key: string)
    requires Run(opts, states, steps) && k < |states|
    ensures var s := FlushAll(states[k], InitiallyBlocked(states[k], opts), states[k].queue, o);
            OutInStreak(s.log, key) ==>
              (SendsKey(s, opts, fb, key) <==>
               GivenBack(s.log, key) && opts.hasSMS && s.failing && exists i :: TurnByLog(s, fb, i, key))
  {
    hide Inv, Due, DueFrom, FlushAll;
    Reachable(opts, states, steps, k);
    LogReachable(opts, states, steps, k);
    var s := FlushAll(states[k], InitiallyBlocked(states[k], opts), states[k].queue, o);
    FlushAllFlushed(states[k], InitiallyBlocked(states[k], opts), states[k].queue, o);
    ShrinkKeeps(states[k], s);
    SecondNeedsGivenBack(s, opts, fb, key);
  }

  /** The state in which a Notify call comes to its fallback. */
  function BeforeFallback(s: State, opts: Options, p: Push): State {
    var uid := s.sends.nextUid;
    var (r, viaSMS) := Route(s.(sends := s.sends.(nextUid := uid + 2)), opts, p, uid);
    if p.kind == Resolved then ResolvedBySMS(r, opts, p.key, uid + 1, p.now, viaSMS, p.rsms) else r
  }

  lemma {:induction false} BeforeFallbackLogs(s: State, opts: Options, p: Push)
    requires Inv(s) && LogInv(s)
    ensures LogInv(BeforeFallback(s, opts, p)) && Notify(s, opts, p) == Fallback(BeforeFallback(s, opts, p), opts, p.fb)
  {
    hide Inv, LogInv, Fresh, Route, ResolvedBySMS, Fallback;
    var uid := s.sends.nextUid;
    var s2 := s.(sends := s.sends.(nextUid := uid + 2));
    AllocateKeeps(s);
    AllocateLogs(s);
    RouteKeeps(s2, opts, p, uid);
    RouteSpares(s2, opts, p, uid, uid + 1);
    RouteLogs(s2, opts, p, uid);
    var (r, viaSMS) := Route(s2, opts, p, uid);
    ResolvedLogs(r, opts, p.key, uid + 1, p.now, viaSMS, p.rsms);
  }

  /** The same for the fallback of a Notify call. */
  lemma {:induction false} SecondInNotify(
    opts: Options, states: seq<State>, steps: seq<Step>, k: nat, p: Push, key: string)
    requires Run(opts, states, steps) && k < |states|
    ensures var s := BeforeFallback(states[k], opts, p);
            && Notify(states[k], opts, p) == Fallback(s, opts, p.fb)
            && (OutInStreak(s.log, key) ==>
                  (SendsKey(s, opts, p.fb, key) <==>
                   GivenBack(s.log, key) && opts.hasSMS && s.failing && exists i :: TurnByLog(s, p.fb, i, key)))
  {
    hide Inv, LogInv, BeforeFallback, Notify, Fallback, Next, Enabled, OutInStreak, GivenBack, SendsKey, TurnByLog;
    Reachable(opts, states, steps, k);
    LogReachable(opts, states, steps, k);
    BeforeFallbackLogs(states[k], opts, p);
    SecondNeedsGivenBack(BeforeFallback(states[k], opts, p), opts, p.fb, key);
  }

  lemma {:induction false} SecondNeedsGivenBack(s: State, opts: Options, fb: string -> Outcome, key: string)
    requires LogInv(s)
    ensures OutInStreak(s.log, key) ==>
              (SendsKey(s, opts, fb, key) <==>
               GivenBack(s.log, key) && opts.hasSMS && s.failing && exists i :: TurnByLog(s, fb, i, key))
  {
    hide DueFrom, Fallback, GoodLog, KeysOK, VerdictsOK, SendsKey, TurnByLog;
    FallbackSends(s, opts, fb, key);
    TurnMeans(s, fb, key);
    if OutInStreak(s.log, key) && !GivenBack(s.log, key) {
      SentOrGivenBack(s.log, key);
      assert key in s.smsProblems;
      forall i ensures !Turn(s, fb, i, key) {}
    }
  }

  // ---------------------------------------------------------------- restored keys

  lemma {:induction false} EverMarked(log: seq<Entry>, uid: nat, key: string)
    requires NewUid(log, uid)
    ensures MarkedSince(log, uid, key) <==> Marked(key) in log
  {
    if log != [] {
      var n := |log| - 1;
      assert log == log[..n] + [log[n]];
      NewUidPrefix(log[..n], log[n], uid);
      EverMarked(log[..n], uid, key);
    }
  }

  /** Over every run the stored SMS-sent keys are taken over, but for exactly those
      whose RESOLVED, or whose condition's end, was seen since start. */
  lemma {:induction false} RestoreTakes(
    opts: Options, states: seq<State>, steps: seq<Step>, k: nat, keys: set<string>, key: string)
    requires Run(opts, states, steps) && k < |states|
    ensures key in RestoreSMS(states[k], keys).smsProblems <==>
            key in states[k].smsProblems || (key in keys && Marked(key) !in states[k].log)
  {
    hide Next, Enabled, VerdictsOK, GoodLog;
    LogReachable(opts, states, steps, k);
    EverMarked(states[k].log, states[k].sends.nextUid, key);
  }

  // ---------------------------------------------------------------- a late failure

  /** A PROBLEM's push while Telegram is offline, by the default mode. */
  function OfflinePush(fb: Outcome): Step {
    DoNotify(Push(Problem, "k", ViaTelegram, 0, PastDeadline, PastDeadline, PastDeadline, Always(fb)))
  }

  /** Every fallback SMS ends the same way. */
  function Always(o: Outcome): string -> Outcome { _ => o }

  /** The key's condition ends while its first fallback SMS hangs; a new streak's
      goes out; then the first fails, gives the key back, and the next flush sends
      the new streak's PROBLEM again. */
  const LATE_FAILURE: seq<Step> :=
    [DoSetOffline(true), OfflinePush(Abandoned(false)), DoForget("k"), OfflinePush(Sent),
     DoSettleFallback("k", false), DoFlush(_ => PastDeadline, Always(Sent))]

  const BOTH := Options(true, true)

  function Queued1(id: int, uid: nat): Message { Message(id, uid, 0, Telegram, Problem, "k", 0) }

  lemma {:induction false} FallbackOne(s: State, fb: string -> Outcome, n: nat)
    requires s.failing && n < |s.queue| && Due(s, n) && forall i :: 0 <= i < |s.queue| && i != n ==> !Due(s, i)
    ensures var m := s.queue[n];
            Fallback(s, BOTH, fb) ==
            if !Out(fb(m.key)) then s
            else s.(smsProblems := s.smsProblems + {m.key}, log := s.log + [FallbackOut(m.uid, m.key)])
  {
    hide Due, DueFrom;
    OneDue(s, n, 0);
    FallbackWith(s, fb, s.queue[n]);
  }

  lemma {:induction false} FallbackWith(s: State, fb: string -> Outcome, m: Message)
    requires DueItems(s) == [m]
    ensures Fallback(s, BOTH, fb) ==
            if !Out(fb(m.key)) then s
            else s.(smsProblems := s.smsProblems + {m.key}, log := s.log + [FallbackOut(m.uid, m.key)])
  {
    hide DueItems;
    var due := [m];
    assert due[..1] == due && due[..0] == [] && due[1..] == [];
    assert Keys(due) == {m.key} by { assert due[0].key in Keys(due); }
    assert OutCount(due[1..], fb) == 0;
    NoKeys();
    assert OutEntries(due) == [FallbackOut(m.uid, m.key)] && OutEntries([]) == [];
  }

  lemma {:induction false} OneDue(s: State, n: nat, i: nat)
    requires n < |s.queue| && i <= |s.queue| && Due(s, n) && forall j :: 0 <= j < |s.queue| && j != n ==> !Due(s, j)
    ensures DueFrom(s, i) == if i <= n then [s.queue[n]] else []
    decreases |s.queue| - i
  {
    hide Due;
    if i < |s.queue| { OneDue(s, n, i + 1); }
  }

  lemma {:induction false} OfflineNotify(s: State, fb: Outcome)
    requires s.offline && |s.queue| < MAX_QUEUE
    ensures Next(s, BOTH, OfflinePush(fb)) ==
            Fallback(s.(queue := s.queue + [Queued1(s.nextID, s.sends.nextUid)], nextID := s.nextID + 1,
                        failing := true, sends := s.sends.(nextUid := s.sends.nextUid + 2),
                        log := s.log + [Queued(s.sends.nextUid, "k")],
                        fates := s.fates.Queue([Queued1(s.nextID, s.sends.nextUid)])),
                     BOTH, Always(fb))
  {
    hide Fallback;
    assert s.fates.handed + [] == s.fates.handed;
  }

  /** The states LATE_FAILURE goes through. */
  function StateAt(k: nat): State
    requires k <= 6
  {
    var d1, d2 := Initial().sends.(nextUid := 2), Initial().sends.(nextUid := 4);
    var q1, q2 := [Queued1(1, 0)], [Queued1(1, 0), Queued1(2, 2)];
    var f1, f2 := Fates(q1, [], [], []), Fates(q2, [], [], []);
    var l2 := [Queued(0, "k"), FallbackOut(0, "k")];
    var l3 := l2 + [Marked("k"), Queued(2, "k")];
    match k
    case 0 => Initial()
    case 1 => Initial().(offline := true)
    case 2 => State(q1, 2, true, true, {"k"}, map[], d1, l2, f1)
    case 3 => State(q1, 2, true, true, {}, map["k" := 2], d1, l2 + [Marked("k")], f1)
    case 4 => State(q2, 3, true, true, {"k"}, map["k" := 2], d2, l3 + [FallbackOut(2, "k")], f2)
    case 5 => State(q2, 3, true, true, {}, map["k" := 2], d2, l3 + [FallbackOut(2, "k"), GaveBack("k")], f2)
    case 6 => State(q2, 3, true, true, {"k"}, map["k" := 2], d2,
                    l3 + [FallbackOut(2, "k"), GaveBack("k"), FallbackOut(2, "k")], f2)
  }

  lemma {:induction false} FirstHangs()
    ensures Next(StateAt(1), BOTH, LATE_FAILURE[1]) == StateAt(2)
  {
    hide Fallback, Due, Next;
    var s := StateAt(1);
    OfflineNotify(s, Abandoned(false));
    var a := StateAt(2).(smsProblems := {}, log := s.log + [Queued(0, "k")]);
    assert s.queue + [Queued1(1, 0)] == a.queue && a.log == [Queued(0, "k")];
    OnlyDue(a, 0);
    FallbackOne(a, Always(Abandoned(false)), 0);
  }

  lemma {:induction false} SecondGoes()
    ensures Next(StateAt(3), BOTH, LATE_FAILURE[3]) == StateAt(4)
  {
    hide Fallback, Due, Next;
    var s := StateAt(3);
    OfflineNotify(s, Sent);
    var b := StateAt(4).(smsProblems := {}, log := s.log + [Queued(2, "k")]);
    assert s.queue + [Queued1(2, 2)] == b.queue;
    OnlyDue(b, 1);
    FallbackOne(b, Always(Sent), 1);
  }

  lemma {:induction false} SecondGoesAgain()
    ensures Next(StateAt(5), BOTH, LATE_FAILURE[5]) == StateAt(6)
  {
    hide Fallback, Due, FlushAll;
    var s := StateAt(5);
    OfflineFlush(s, _ => PastDeadline);
    OnlyDue(s, 1);
    FallbackOne(s, Always(Sent), 1);
    assert s.log + [FallbackOut(2, "k")] == StateAt(6).log;
  }

  lemma {:induction false} SmallSteps()
    ensures Next(StateAt(0), BOTH, LATE_FAILURE[0]) == StateAt(1)
    ensures Enabled(StateAt(2), LATE_FAILURE[2]) && Next(StateAt(2), BOTH, LATE_FAILURE[2]) == StateAt(3)
    ensures Next(StateAt(4), BOTH, LATE_FAILURE[4]) == StateAt(5)
  {
    var s := StateAt(2);
    assert s.log + [Marked("k")] == StateAt(3).log && s.smsProblems - {"k"} == {};
  }

  /** A run with two fallback SMS of one streak. */
  lemma {:induction false} LateFailureSendsAgain() returns (states: seq<State>)
    ensures Run(BOTH, states, LATE_FAILURE)
    ensures states[6].log ==
            [Queued(0, "k"), FallbackOut(0, "k"), Marked("k"), Queued(2, "k"),
             FallbackOut(2, "k"), GaveBack("k"), FallbackOut(2, "k")]
  {
    hide Next, Enabled, StateAt;
    states := seq(7, k requires 0 <= k <= 6 => StateAt(k));
    forall i | 0 <= i < 6
      ensures Enabled(states[i], LATE_FAILURE[i]) && states[i + 1] == Next(states[i], BOTH, LATE_FAILURE[i])
    {
      StepAt(i);
    }
    Ends();
  }

  lemma {:induction false} StepAt(i: nat)
    requires i < 6
    ensures Enabled(StateAt(i), LATE_FAILURE[i]) && Next(StateAt(i), BOTH, LATE_FAILURE[i]) == StateAt(i + 1)
  {
    hide Next, StateAt;
    SmallSteps();
    FirstHangs();
    SecondGoes();
    SecondGoesAgain();
  }

  lemma {:induction false} Ends()
    ensures StateAt(0) == Initial()
    ensures StateAt(6).log ==
            [Queued(0, "k"), FallbackOut(0, "k"), Marked("k"), Queued(2, "k"),
             FallbackOut(2, "k"), GaveBack("k"), FallbackOut(2, "k")]
  {
  }

  /** Of PROBLEMs of one unclaimed key the last, queued after the mark, is due. */
  lemma {:induction false} OnlyDue(s: State, n: nat)
    requires |s.queue| == n + 1 && s.smsProblems == {}
    requires forall i :: 0 <= i <= n ==>
               s.queue[i].channel == Telegram && s.queue[i].kind == Problem && s.queue[i].key == "k"
    requires "k" in s.resolvedBefore ==> s.queue[n].id >= s.resolvedBefore["k"]
    ensures Due(s, n) && forall i :: 0 <= i < |s.queue| && i != n ==> !Due(s, i)
  {
    forall i | 0 <= i < n ensures !Due(s, i) { assert Later(s.queue[n], s.queue[i].key); }
  }

  /** A flush while Telegram is offline leaves its messages alone. */
  lemma {:induction false} OfflineFlush(s: State, o: int -> Outcome)
    requires s.offline && |s.queue| == 2 && s.queue[0].channel == Telegram && s.queue[1].channel == Telegram
    ensures FlushAll(s, InitiallyBlocked(s, BOTH), s.queue, o) == s
  {
    assert s.queue[1..][1..] == [];
    assert FlushAll(s, InitiallyBlocked(s, BOTH), s.queue[1..], o) == s;
  }
}
