/** The notifier as the program keeps it: a queue, a table of sends in progress and
    the marks, changed in place. Every method is proved to do what the model of
    its operation says. */
module Notifier {
  import opened Basics
  import opened NotifierModel
  import opened NotifierRuns
  import opened NotifierFallback

  class Notifier {
    const opts: Options
    var queue: seq<Message>
    var nextID: int
    var offline: bool
    var failing: bool
    var smsProblems: set<string>
    var resolvedBefore: map<string, int>
    var sends: Sends
    ghost var log: seq<Entry>
    ghost var fates: Fates

    ghost function Now(): State
      reads this
    {
      State(queue, nextID, offline, failing, smsProblems, resolvedBefore, sends, log, fates)
    }

    constructor (opts: Options)
      ensures this.opts == opts && Now() == Initial()
    {
      this.opts := opts;
      queue, nextID, offline, failing := [], 1, false, false;
      smsProblems, resolvedBefore := {}, map[];
      sends, log, fates := Sends(map[], map[], 0, 0, multiset{}), [], Fates([], [], [], []);
    }

    method RemoveByID(id: int)
      modifies this`queue
      ensures queue == Remove(old(queue), id)
    {
      var i := 0;
      while i < |queue|
        invariant i <= |queue| && queue == old(queue)
        invariant Remove(queue, id) == queue[..i] + Remove(queue[i..], id)
      {
        RemoveStep(queue, i, id);
        if queue[i].id == id {
          queue := queue[..i] + queue[i + 1..];
          return;
        }
        i := i + 1;
      }
      RemoveStep(queue, i, id);
    }

    method BumpByID(id: int)
      modifies this`queue
      ensures queue == Bump(old(queue), id)
    {
      hide Bump;
      var q := queue;
      for i := 0 to |q|
        invariant |q| == |old(queue)|
        invariant q[..i] == Bump(old(queue), id)[..i] && q[i..] == old(queue)[i..]
      {
        BumpStep(old(queue), q, i, id);
        if q[i].id == id { q := q[i := q[i].(attempts := q[i].attempts + 1)]; }
      }
      assert q[..|q|] == q && Bump(old(queue), id)[..|q|] == Bump(old(queue), id);
      queue := q;
    }

    /** Drops the oldest messages beyond the bound and returns them. */
    method Trim() returns (dropped: seq<Message>)
      modifies this`queue
      ensures queue == Trimmed(old(queue)) && dropped == Overflow(old(queue))
    {
      dropped := [];
      if |queue| > MAX_QUEUE {
        var extra := |queue| - MAX_QUEUE;
        dropped := queue[..extra];
        queue := queue[extra..];
      }
    }

    method Track(id: int, uid: nat, o: Outcome)
      modifies this`sends
      ensures Now() == NotifierModel.Track(old(Now()), id, uid, o)
    {
      if o.Abandoned? { sends := sends.File(id, uid); }
    }

    method EnqueueTracked(channel: Channel, kind: Kind, key: string, uid: nat, now: int, o: Outcome)
      returns (dropped: seq<Message>)
      modifies this
      ensures Now() == Enqueue(old(Now()), channel, kind, key, uid, now, o)
      ensures fates.handed == old(fates.handed) + dropped
    {
      var id := nextID;
      var m := Message(id, uid, now, channel, kind, key, 0);
      queue := queue + [m];
      nextID := nextID + 1;
      log := log + [Queued(uid, key)];
      Track(id, uid, o);
      dropped := Trim();
      fates := fates.Queue([m]).Hand(dropped);
    }

    /** Retries one message of the snapshot, unless its channel is blocked. */
    method FlushItem(item: Message, blocked: set<Channel>, err: Outcome) returns (now: set<Channel>)
      modifies this
      ensures (Now(), now) == FlushOne(old(Now()), blocked, item, err)
    {
      now := blocked;
      if item.channel in blocked { return; }
      if item.id in sends.inflight {
        now := blocked + {item.channel};
      } else if item.channel == SMS && item.kind == Problem && item.key in resolvedBefore
                && item.id < resolvedBefore[item.key] {
        RemoveByID(item.id);
        fates := fates.Stale(item);
      } else {
        if item.channel == Telegram { failing := Health(failing, err); }
        if err.Sent? {
          RemoveByID(item.id);
          fates := fates.Send([item]);
          sends := sends.Deliver(item.uid);
        } else {
          now := blocked + {item.channel};
          BumpByID(item.id);
          Track(item.id, item.uid, err);
        }
      }
    }

    /** Retries the queued messages in order, per channel; it walks a snapshot
        while messages leave the queue by ID. */
    method FlushQueue(o: int -> Outcome)
      modifies this
      ensures Now() == FlushAll(old(Now()), InitiallyBlocked(old(Now()), opts), old(queue), o)
    {
      hide FlushOne;
      var pending := queue;
      var blocked: set<Channel> := {Email};
      if offline || !opts.hasTelegram { blocked := blocked + {Telegram}; }
      if !opts.hasSMS { blocked := blocked + {SMS}; }
      assert pending[0..] == pending;
      assert blocked == InitiallyBlocked(Now(), opts);
      for i := 0 to |pending|
        invariant FlushAll(Now(), blocked, pending[i..], o) ==
                  FlushAll(old(Now()), InitiallyBlocked(old(Now()), opts), pending, o)
      {
        assert pending[i..][0] == pending[i] && pending[i..][1..] == pending[i + 1..];
        blocked := FlushItem(pending[i], blocked, o(pending[i].id));
      }
      assert pending[|pending|..] == [];
    }

    /** The ID of the last queued Telegram problem or RESOLVED of each key. */
    method LastOfKey() returns (last: map<string, int>)
      ensures forall key :: key in last ==> LastIs(queue, |queue|, key, last[key])
      ensures forall i :: 0 <= i < |queue| && Later(queue[i], queue[i].key) ==> queue[i].key in last
    {
      last := map[];
      for i := 0 to |queue|
        invariant forall key :: key in last ==> LastIs(queue, i, key, last[key])
        invariant forall j :: 0 <= j < i && Later(queue[j], queue[j].key) ==> queue[j].key in last
      {
        var item := queue[i];
        ghost var before := last;
        if item.channel == Telegram && item.kind != Event {
          last := last[item.key := item.id];
        }
        forall key | key in last ensures LastIs(queue, i + 1, key, last[key]) {
          if Later(item, key) {
            assert queue[i].id == last[key];
          } else {
            assert LastIs(queue, i, key, before[key]);
            var j :| 0 <= j < i && queue[j].id == before[key] && Later(queue[j], key) && NoLater(queue, j, i, key);
            assert NoLater(queue, j, i + 1, key);
          }
        }
      }
    }

    /** The messages due for the fallback, their keys claimed. */
    method FallbackDue() returns (due: seq<Message>)
      requires QueueOK(queue, nextID)
      modifies this`smsProblems
      ensures due == DueItems(old(Now())) && smsProblems == old(smsProblems) + Keys(due)
    {
      hide Due, DueFrom, QueueOK, Later, LastIs;
      due := [];
      if !failing { return; }
      var last := LastOfKey();
      ghost var s := Now();
      for i := 0 to |queue|
        invariant due + DueFrom(s, i) == DueFrom(s, 0)
        invariant smsProblems == old(smsProblems) + Keys(due)
        invariant FoundDue(s, due, i)
        invariant Now() == s.(smsProblems := smsProblems)
      {
        DueStep(s, due, i);
        var item := queue[i];
        var mark := if item.key in resolvedBefore then resolvedBefore[item.key] else 0;
        DueByLast(s, last, due, i);
        if item.channel == Telegram && item.kind == Problem && item.key in last && item.id == last[item.key]
           && item.id >= mark && item.key !in smsProblems {
          smsProblems := smsProblems + {item.key};
          KeysAppend(due, item);
          due := due + [item];
        }
      }
      DueStep(s, due, |queue|);
    }

    /** Sends one message after another until one is not sent. */
    method SendDue(due: seq<Message>, fb: string -> Outcome) returns (i: nat)
      ensures i <= |due|
      ensures OutCount(due, fb) == if i < |due| && fb(due[i].key).Abandoned? then i + 1 else i
    {
      i := 0;
      while i < |due| && fb(due[i].key).Sent?
        invariant i <= |due| && OutCount(due, fb) == i + OutCount(due[i..], fb)
      {
        assert due[i..][1..] == due[i + 1..];
        i := i + 1;
      }
    }

    /** Takes the keys of the messages not sent out of the SMS-sent set. */
    method Unclaim(unsent: seq<Message>)
      modifies this`smsProblems
      ensures smsProblems == old(smsProblems) - Keys(unsent)
    {
      for k := 0 to |unsent|
        invariant smsProblems == old(smsProblems) - Keys(unsent[..k])
      {
        assert unsent[..k + 1] == unsent[..k] + [unsent[k]];
        KeysAppend(unsent[..k], unsent[k]);
        smsProblems := smsProblems - {unsent[k].key};
      }
      assert unsent[..|unsent|] == unsent;
    }

    /** Sends the due PROBLEMs by SMS until one fails; the keys of those not sent
        leave the SMS-sent set again. */
    method SmsFallback(fb: string -> Outcome)
      requires QueueOK(queue, nextID)
      modifies this
      ensures Now() == Fallback(old(Now()), opts, fb)
    {
      if !opts.hasSMS { return; }
      hide QueueOK, DueItems, OutCount, Keys, OutEntries, Fallback;
      ghost var s := Now();
      var due := FallbackDue();
      DueDistinct(s);
      var i := SendDue(due, fb);
      if i < |due| && fb(due[i].key).Abandoned? { i := i + 1; }
      log := log + OutEntries(due[..i]);
      Unclaim(due[i..]);
      assert Now() == s.(smsProblems := smsProblems, log := s.log + OutEntries(due[..i]));
      ClaimedKept(s, due, i);
      FallbackIs(s, Now(), opts, fb, i);
    }

    method ExpireBefore(cutoff: int) returns (dropped: seq<Message>)
      modifies this`queue, this`fates
      ensures Now() == Expire(old(Now()), cutoff) && dropped == Expired(old(queue), cutoff)
    {
      hide NotBefore, Expired;
      var q := queue;
      var kept: seq<Message> := [];
      dropped := [];
      assert q[0..] == q;
      for i := 0 to |q|
        invariant kept + NotBefore(q[i..], cutoff) == NotBefore(q, cutoff)
        invariant dropped + Expired(q[i..], cutoff) == Expired(q, cutoff)
        invariant Now() == old(Now())
      {
        NotBeforeStep(q, kept, i, cutoff);
        ExpiredStep(q, dropped, i, cutoff);
        if q[i].createdAt < cutoff { dropped := dropped + [q[i]]; } else { kept := kept + [q[i]]; }
      }
      assert q[|q|..] == [];
      NothingNotBefore(cutoff);
      queue := kept;
      fates := fates.Hand(dropped);
    }

    /** Moves the in-flight marks to the messages' new IDs. */
    method Renumber(ids: map<int, int>, ghost top: int)
      requires Ascending(queue) && MarksOK(sends, nextID) && Table(ids, queue, top)
      modifies this`sends
      ensures sends == RenumberSends(old(sends), queue, top)
    {
      hide RenumberFlight, Ascending, MovedFlights, MovedMarks, Table, MarksOK;
      var d := sends;
      var moved: map<int, nat> := map[];
      var flights := d.flights;
      var left: set<int> := d.inflight.Keys;
      NothingMoved(d, queue, top);
      while left != {}
        invariant left <= d.inflight.Keys
        invariant MovedFlights(d, queue, top, left, flights) && MovedMarks(d.inflight, queue, top, left, moved)
        decreases |left|
      {
        NonEmpty(left);
        var from: int :| from in left;
        MarkMoves(d, queue, top, nextID, ids, left, from, flights, moved);
        var f := d.inflight[from];
        left := left - {from};
        if from in ids {
          flights := flights[f := flights[f].(id := ids[from])];
          moved := moved[ids[from] := f];
        }
      }
      AllMoved(d, queue, top, left, flights, moved);
      sends := d.(inflight := moved, flights := flights);
    }

    /** Where a mark lands: the lowest new ID of a message at or past it. */
    method MoveMark(ids: map<int, int>, ghost q: seq<Message>, ghost top: int, mark: int) returns (moved: int)
      requires Ascending(q) && Table(ids, q, top) && nextID > top + |q|
      ensures moved == MovedMark(q, top, nextID, mark)
    {
      moved := nextID;
      var left: set<int> := ids.Keys;
      while left != {}
        invariant left <= ids.Keys && moved <= nextID
        invariant forall id :: id in ids && id !in left && id >= mark ==> moved <= ids[id]
        invariant moved == nextID || exists id :: id in ids && id >= mark && ids[id] == moved
        decreases |left|
      {
        NonEmpty(left);
        var from: int :| from in left;
        left := left - {from};
        if from >= mark && ids[from] < moved { moved := ids[from]; }
      }
      var n := Before(q, mark);
      if n < |q| { assert q[n].id in ids; }
      if moved != nextID {
        ghost var id :| id in ids && id >= mark && ids[id] == moved;
        ghost var i :| 0 <= i < |q| && q[i].id == id;
      }
    }

    method MoveResolved(ids: map<int, int>, ghost q: seq<Message>, ghost top: int)
      requires Ascending(q) && Table(ids, q, top) && nextID > top + |q|
      modifies this`resolvedBefore
      ensures resolvedBefore == MoveMarks(old(resolvedBefore), q, top, nextID)
    {
      var left := resolvedBefore.Keys;
      while left != {}
        invariant left <= old(resolvedBefore).Keys && resolvedBefore.Keys == old(resolvedBefore).Keys
        invariant forall k :: k in resolvedBefore ==>
                    resolvedBefore[k] == if k in left then old(resolvedBefore)[k]
                                         else MovedMark(q, top, nextID, old(resolvedBefore)[k])
        decreases left
      {
        var key :| key in left;
        left := left - {key};
        var moved := MoveMark(ids, q, top, resolvedBefore[key]);
        resolvedBefore := resolvedBefore[key := moved];
      }
    }

    /** The stored rows followed by the in-memory messages renumbered, and the
        table of their IDs. */
    method Renumbering(stored: seq<Message>) returns (merged: seq<Message>, ids: map<int, int>, top: int)
      requires Ascending(queue)
      ensures top == Top(stored) + |queue|
      ensures merged == Identified(stored, sends.nextUid) + NotifierModel.Renumbered(queue, Top(stored))
      ensures Table(ids, queue, Top(stored))
    {
      top := 0;
      for i := 0 to |stored|
        invariant top == Top(stored[..i])
      {
        assert stored[..i + 1][..i] == stored[..i];
        if stored[i].id > top { top := stored[i].id; }
      }
      assert stored[..|stored|] == stored;
      hide Table, NotifierModel.Renumbered, Identified, Ascending, Top;
      ghost var base := top;
      merged := Identified(stored, sends.nextUid);
      ids := map[];
      NoTable(base);
      assert queue[..0] == [];
      for i := 0 to |queue|
        invariant top == base + i
        invariant merged == Identified(stored, sends.nextUid) + NotifierModel.Renumbered(queue[..i], base)
        invariant Table(ids, queue[..i], base)
      {
        var item := queue[i];
        top := top + 1;
        assert queue[..i + 1] == queue[..i] + [item];
        NoneBefore(queue, i);
        TableAppend(ids, queue[..i], base, item);
        RenumberedAppend(queue[..i], base, item);
        ids := ids[item.id := top];
        merged := merged + [item.(id := top)];
      }
      assert queue[..|queue|] == queue;
    }

    /** Folds a queue loaded late into the one in memory. */
    method MergeStored(stored: seq<Message>) returns (dropped: seq<Message>)
      requires Inv(Now()) && FromStore(stored)
      modifies this
      ensures Now() == Merge(old(Now()), stored) && fates.handed == old(fates.handed) + dropped
    {
      hide RenumberSends, MovedMark, MoveMarks, Inv, Identified, NotifierModel.Renumbered, Trimmed, Overflow, Merge;
      hide MarksOK, Table, Ascending, FromStore, Top, StoredEntries;
      ghost var s, base := Now(), Top(stored);
      MarksOf(s);
      MergeIs(s, stored);
      ghost var rows := Identified(stored, sends.nextUid);
      var merged, ids, top := Renumbering(stored);
      Renumber(ids, base);
      queue := merged;
      nextID := if nextID > top + 1 then nextID else top + 1;
      MoveResolved(ids, s.queue, base);
      log := log + StoredEntries(rows);
      sends := sends.(nextUid := sends.nextUid + |stored|);
      dropped := Trim();
      fates := fates.Queue(rows).Hand(dropped);
    }

    /** The abandoned send of flight f returned. */
    method SettleFlight(f: nat, ok: bool)
      requires f in sends.flights
      modifies this
      ensures Now() == Settle(old(Now()), f, ok)
    {
      var id := sends.flights[f].id;
      var filed := sends.Filed(f);
      sends := sends.Land(f, ok);
      if !filed { return; }
      if ok {
        if QueuedOn(queue, id, Telegram) { failing := false; }
        fates := fates.Send(Removed(queue, id));
        RemoveByID(id);
      } else {
        BumpByID(id);
      }
    }

    /** Takes a key out of the SMS-sent set and marks its PROBLEMs queued so far. */
    method MarkResolved(key: string)
      modifies this
      ensures Now() == MarkKey(old(Now()), key)
    {
      resolvedBefore := resolvedBefore[key := nextID];
      smsProblems := smsProblems - {key};
      log := log + [Marked(key)];
    }

    method ViaTelegramOnly(p: Push, uid: nat)
      modifies this
      ensures Now() == SendTelegram(old(Now()), opts, p.kind, p.key, uid, p.now, p.tlg)
    {
      if offline || !opts.hasTelegram {
        failing := true;
        var _ := EnqueueTracked(Telegram, p.kind, p.key, uid, p.now, PastDeadline);
        return;
      }
      failing := Health(failing, p.tlg);
      if p.tlg.Sent? {
        sends := sends.Deliver(uid);
      } else {
        var _ := EnqueueTracked(Telegram, p.kind, p.key, uid, p.now, p.tlg);
      }
    }

    method ViaSMSOnly(kind: Kind, key: string, uid: nat, now: int, o: Outcome)
      modifies this
      ensures Now() == SendSMS(old(Now()), kind, key, uid, now, o)
    {
      if o.Sent? {
        sends := sends.Deliver(uid);
      } else {
        var _ := EnqueueTracked(SMS, kind, key, uid, now, o);
      }
    }

    /** Telegram, or SMS when Telegram fails; reports whether the SMS went out. */
    method ViaEither(p: Push, uid: nat) returns (viaSMS: bool)
      modifies this
      ensures (Now(), viaSMS) == SendEither(old(Now()), opts, p.kind, p.key, uid, p.now, p.tlg, p.sms)
    {
      viaSMS := false;
      if !opts.hasSMS {
        ViaTelegramOnly(p, uid);
        return;
      }
      var tried := !offline && opts.hasTelegram;
      if tried {
        failing := Health(failing, p.tlg);
        if p.tlg.Sent? {
          sends := sends.Deliver(uid);
          return;
        }
        if p.tlg.PastDeadline? {
          var _ := EnqueueTracked(Telegram, p.kind, p.key, uid, p.now, PastDeadline);
          return;
        }
      }
      if p.sms.Sent? {
        sends := sends.Deliver(uid);
        return true;
      }
      if p.kind == Problem && p.sms.Abandoned? { smsProblems := smsProblems + {p.key}; }
      if tried {
        var _ := EnqueueTracked(Telegram, p.kind, p.key, uid, p.now, p.tlg);
      } else {
        failing := true;
        var _ := EnqueueTracked(Telegram, p.kind, p.key, uid, p.now, PastDeadline);
      }
    }

    method Deliver(p: Push, uid: nat) returns (viaSMS: bool)
      modifies this
      ensures (Now(), viaSMS) == Route(old(Now()), opts, p, uid)
    {
      viaSMS := false;
      match p.mode
      case ViaSMS =>
        if opts.hasSMS {
          ViaSMSOnly(p.kind, p.key, uid, p.now, p.sms);
          viaSMS := true;
        } else {
          ViaTelegramOnly(p, uid);
        }
      case ViaTelegramOrSMS => viaSMS := ViaEither(p, uid);
      case ViaTelegram => ViaTelegramOnly(p, uid);
    }

    /** Delivers a message, queues it when that fails, and lets the fallback look
        at the queue. */
    method Notify(p: Push)
      requires Inv(Now())
      modifies this
      ensures Now() == NotifierModel.Notify(old(Now()), opts, p)
    {
      hide Inv, Fallback, Enqueue, SendTelegram, SendEither, MarkKey;
      ghost var s := Now();
      var uid := sends.nextUid;
      sends := sends.(nextUid := uid + 2);
      var viaSMS := Deliver(p, uid);
      if p.kind == Resolved {
        var wasSMS := p.key in smsProblems;
        MarkResolved(p.key);
        if wasSMS && !viaSMS && opts.hasSMS {
          ViaSMSOnly(Resolved, p.key, uid + 1, p.now, p.rsms);
        }
      }
      NotifyQueueOK(s, opts, p);
      SmsFallback(p.fb);
    }

    method Flush(o: int -> Outcome, fb: string -> Outcome)
      requires Inv(Now())
      modifies this
      ensures Now() == NotifierModel.Flush(old(Now()), opts, o, fb)
    {
      hide SendsOK, FlushAll, Fallback;
      assert queue == [] + queue;
      FlushKeeps(Now(), InitiallyBlocked(Now(), opts), [], queue, o);
      FlushQueue(o);
      SmsFallback(fb);
    }
  }

  // ---------------------------------------------------------------- lemmas of the loops

  lemma {:induction false} MarksOf(s: State)
    requires Inv(s)
    ensures MarksOK(s.sends, s.nextID) && Ascending(s.queue)
  {
  }

  /** A merge, field by field. */
  lemma {:induction false} MergeIs(s: State, stored: seq<Message>)
    ensures var t, top := Merge(s, stored), Top(stored);
            var merged := Identified(stored, s.sends.nextUid) + NotifierModel.Renumbered(s.queue, top);
            && t.queue == Trimmed(merged)
            && t.nextID == (if s.nextID > top + |s.queue| + 1 then s.nextID else top + |s.queue| + 1)
            && t.offline == s.offline && t.failing == s.failing && t.smsProblems == s.smsProblems
            && t.resolvedBefore == MoveMarks(s.resolvedBefore, s.queue, top, t.nextID)
            && t.sends == RenumberSends(s.sends, s.queue, top).(nextUid := s.sends.nextUid + |stored|)
            && RenumberSends(s.sends, s.queue, top).nextUid == s.sends.nextUid
            && t.log == s.log + StoredEntries(Identified(stored, s.sends.nextUid))
            && t.fates == s.fates.Queue(Identified(stored, s.sends.nextUid)).Hand(Overflow(merged))
  {
    hide MovedMark, RenumberMarks, RenumberFlight, Identified, NotifierModel.Renumbered, StoredEntries;
  }

  /** The table from old to new IDs: old ID to top + 1 + position. */
  ghost predicate Table(ids: map<int, int>, q: seq<Message>, top: int) {
    && (forall i :: 0 <= i < |q| ==> q[i].id in ids && ids[q[i].id] == top + 1 + i)
    && (forall id :: id in ids ==> HasID(q, id))
  }

  lemma {:induction false} TableAppend(ids: map<int, int>, q: seq<Message>, top: int, m: Message)
    requires Table(ids, q, top) && NoID(q, m.id)
    ensures Table(ids[m.id := top + 1 + |q|], q + [m], top)
  {
    var more, r := ids[m.id := top + 1 + |q|], q + [m];
    assert r[|q|] == m;
    assert forall i :: 0 <= i < |q| ==> r[i] == q[i];
    forall id | id in more ensures HasID(r, id) {
      if id in ids {
        var i :| 0 <= i < |q| && q[i].id == id;
        assert r[i].id == id;
      }
    }
  }

  lemma {:induction false} NoTable(top: int)
    ensures Table(map[], [], top) && NotifierModel.Renumbered([], top) == []
  {
  }

  lemma {:induction false} NoneBefore(q: seq<Message>, i: nat)
    requires Ascending(q) && i < |q|
    ensures NoID(q[..i], q[i].id)
  {
  }

  /** The marks moved while those of `left` are still to come. */
  ghost predicate MovedMarks(inflight: map<int, nat>, q: seq<Message>, top: int, left: set<int>, moved: map<int, nat>) {
    && (forall id :: id in moved <==>
          top < id <= top + |q| && q[id - top - 1].id in inflight && q[id - top - 1].id !in left)
    && (forall id :: id in moved ==> moved[id] == inflight[q[id - top - 1].id])
  }

  ghost predicate MovedFlights(d: Sends, q: seq<Message>, top: int, left: set<int>, flights: map<nat, Flight>) {
    && flights.Keys == d.flights.Keys
    && (forall f :: f in flights ==>
          flights[f] == if d.flights[f].id in left then d.flights[f] else RenumberFlight(d, q, top, f))
  }

  lemma {:induction false} NothingMoved(d: Sends, q: seq<Message>, top: int)
    ensures MovedFlights(d, q, top, d.inflight.Keys, d.flights)
    ensures MovedMarks(d.inflight, q, top, d.inflight.Keys, map[])
  {
  }

  lemma {:induction false} AllMoved(
    d: Sends, q: seq<Message>, top: int, left: set<int>, flights: map<nat, Flight>, moved: map<int, nat>)
    requires left == {} && MovedFlights(d, q, top, left, flights) && MovedMarks(d.inflight, q, top, left, moved)
    ensures d.(inflight := moved, flights := flights) == RenumberSends(d, q, top)
  {
    forall id
      ensures id in moved <==> id in RenumberMarks(d.inflight, q, top)
      ensures id in moved ==> moved[id] == RenumberMarks(d.inflight, q, top)[id]
    {
      RenumberedMark(d.inflight, q, top, id);
    }
    assert flights == RenumberSends(d, q, top).flights;
  }

  /** One mark moves: it lands under its message's new ID with its flight, or is
      dropped with a message no longer queued. */
  lemma {:induction false} MarkMoves(
    d: Sends, q: seq<Message>, top: int, nextID: int, ids: map<int, int>, left: set<int>, from: int,
    flights: map<nat, Flight>, moved: map<int, nat>)
    requires Ascending(q) && MarksOK(d, nextID) && Table(ids, q, top) && from in left && left <= d.inflight.Keys
    requires MovedFlights(d, q, top, left, flights) && MovedMarks(d.inflight, q, top, left, moved)
    ensures d.inflight[from] in flights
    ensures var f := d.inflight[from];
            if from in ids then
              && MovedFlights(d, q, top, left - {from}, flights[f := flights[f].(id := ids[from])])
              && MovedMarks(d.inflight, q, top, left - {from}, moved[ids[from] := f])
            else MovedFlights(d, q, top, left - {from}, flights) && MovedMarks(d.inflight, q, top, left - {from}, moved)
  {
    MarkMovesFlight(d, q, top, nextID, ids, left, from, flights);
    MarkMovesMark(d, q, top, ids, left, from, moved);
  }

  lemma {:induction false} MarkMovesFlight(
    d: Sends, q: seq<Message>, top: int, nextID: int, ids: map<int, int>, left: set<int>, from: int,
    flights: map<nat, Flight>)
    requires Ascending(q) && MarksOK(d, nextID) && Table(ids, q, top) && from in left && left <= d.inflight.Keys
    requires MovedFlights(d, q, top, left, flights)
    ensures d.inflight[from] in flights
    ensures var f := d.inflight[from];
            MovedFlights(d, q, top, left - {from},
                         if from in ids then flights[f := flights[f].(id := ids[from])] else flights)
  {
    hide Table, Before;
    var f := d.inflight[from];
    assert f in d.flights && d.flights[f].id == from;
    TableAt(ids, q, top, from);
    if from in ids {
      RenumberedFlight(q, nextID, d, top, ids[from] - top - 1);
    } else {
      assert !HasID(q, from);
    }
    hide Ascending, MarksOK, HasID;
    assert forall g :: g in d.flights && g != f && d.flights[g].id == from ==> !d.Filed(g);
  }

  lemma {:induction false} MarkMovesMark(
    d: Sends, q: seq<Message>, top: int, ids: map<int, int>, left: set<int>, from: int, moved: map<int, nat>)
    requires Ascending(q) && Table(ids, q, top) && from in left && left <= d.inflight.Keys
    requires MovedMarks(d.inflight, q, top, left, moved)
    ensures MovedMarks(d.inflight, q, top, left - {from},
                       if from in ids then moved[ids[from] := d.inflight[from]] else moved)
  {
    hide Ascending, Table, MovedMarks;
    TableAt(ids, q, top, from);
    if from in ids {
      var i := ids[from] - top - 1;
      OnlyAt(q, i);
      MarkPuts(d.inflight, q, top, left, i, moved);
    } else {
      MarkSkips(d.inflight, q, top, left, from, moved);
    }
  }

  lemma {:induction false} TableAt(ids: map<int, int>, q: seq<Message>, top: int, id: int)
    requires Table(ids, q, top)
    ensures id in ids ==> top < ids[id] <= top + |q| && q[ids[id] - top - 1].id == id
    ensures id !in ids ==> forall i :: 0 <= i < |q| ==> q[i].id != id
  {
    if id in ids { var i :| 0 <= i < |q| && q[i].id == id; }
    if id !in ids { forall i | 0 <= i < |q| ensures q[i].id != id { assert q[i].id in ids; } }
  }

  lemma {:induction false} MarkPuts(
    inflight: map<int, nat>, q: seq<Message>, top: int, left: set<int>, i: nat, moved: map<int, nat>)
    requires MovedMarks(inflight, q, top, left, moved) && i < |q| && q[i].id in left && left <= inflight.Keys
    requires forall j :: 0 <= j < |q| && q[j].id == q[i].id ==> j == i
    ensures MovedMarks(inflight, q, top, left - {q[i].id}, moved[top + 1 + i := inflight[q[i].id]])
  {
    var more := moved[top + 1 + i := inflight[q[i].id]];
    forall id
      ensures id in more <==>
              top < id <= top + |q| && q[id - top - 1].id in inflight && q[id - top - 1].id !in left - {q[i].id}
    {
      if id in moved { assert top < id <= top + |q|; }
    }
  }

  lemma {:induction false} MarkSkips(
    inflight: map<int, nat>, q: seq<Message>, top: int, left: set<int>, from: int, moved: map<int, nat>)
    requires MovedMarks(inflight, q, top, left, moved) && forall j :: 0 <= j < |q| ==> q[j].id != from
    ensures MovedMarks(inflight, q, top, left - {from}, moved)
  {
  }

  lemma {:induction false} OnlyAt(q: seq<Message>, i: nat)
    requires Ascending(q) && i < |q|
    ensures forall j :: 0 <= j < |q| && q[j].id == q[i].id ==> j == i
  {
  }

  lemma {:induction false} BumpStep(q: seq<Message>, r: seq<Message>, i: nat, id: int)
    requires i < |q| == |r| && r[..i] == Bump(q, id)[..i] && r[i..] == q[i..]
    ensures var t := if r[i].id == id then r[i := r[i].(attempts := r[i].attempts + 1)] else r;
            t[..i + 1] == Bump(q, id)[..i + 1] && t[i + 1..] == q[i + 1..]
  {
    var b := Bump(q, id);
    hide Bump;
    assert r[i] == r[i..][0] && q[i] == q[i..][0];
    assert b[i] == if q[i].id == id then q[i].(attempts := q[i].attempts + 1) else q[i];
    var t := if r[i].id == id then r[i := r[i].(attempts := r[i].attempts + 1)] else r;
    assert b[..i + 1] == b[..i] + [b[i]] && t[..i + 1] == r[..i] + [t[i]];
    assert t[i + 1..] == r[i..][1..] && q[i + 1..] == q[i..][1..];
  }

  lemma {:induction false} RemoveStep(q: seq<Message>, i: nat, id: int)
    requires i <= |q|
    ensures i == |q| ==> q[..i] + Remove(q[i..], id) == q
    ensures i < |q| && q[i].id == id ==> q[..i] + Remove(q[i..], id) == q[..i] + q[i + 1..]
    ensures i < |q| && q[i].id != id ==> q[..i] + Remove(q[i..], id) == q[..i + 1] + Remove(q[i + 1..], id)
  {
    if i < |q| {
      assert q[i..][1..] == q[i + 1..] && q[i..][0] == q[i];
      if q[i].id != id {
        var r := Remove(q[i + 1..], id);
        assert q[..i] + ([q[i]] + r) == q[..i + 1] + r;
      }
    }
  }

  lemma {:induction false} NothingNotBefore(cutoff: int)
    ensures NotBefore([], cutoff) == [] && Expired([], cutoff) == []
  {
  }

  lemma {:induction false} ExpiredStep(q: seq<Message>, dropped: seq<Message>, i: nat, cutoff: int)
    requires i < |q|
    ensures dropped + Expired(q[i..], cutoff) ==
            (if q[i].createdAt < cutoff then dropped + [q[i]] else dropped) + Expired(q[i + 1..], cutoff)
  {
    assert q[i..][1..] == q[i + 1..];
  }

  lemma {:induction false} NotBeforeStep(q: seq<Message>, kept: seq<Message>, i: nat, cutoff: int)
    requires i < |q|
    ensures kept + NotBefore(q[i..], cutoff) ==
            (if q[i].createdAt < cutoff then kept else kept + [q[i]]) + NotBefore(q[i + 1..], cutoff)
  {
    assert q[i..][1..] == q[i + 1..];
  }

  lemma {:induction false} DueStep(s: State, due: seq<Message>, i: nat)
    requires i <= |s.queue|
    ensures i == |s.queue| ==> DueFrom(s, i) == []
    ensures i < |s.queue| ==> due + DueFrom(s, i) == (if Due(s, i) then due + [s.queue[i]] else due) + DueFrom(s, i + 1)
  {
  }

  ghost predicate NoLater(q: seq<Message>, j: int, i: int, key: string)
    requires i <= |q|
  {
    forall k :: 0 <= k && j < k < i ==> !Later(q[k], key)
  }

  /** id is that of the last problem or RESOLVED of the key in q[..i]. */
  ghost predicate LastIs(q: seq<Message>, i: nat, key: string, id: int)
    requires i <= |q|
  {
    exists j :: 0 <= j < i && q[j].id == id && Later(q[j], key) && NoLater(q, j, i, key)
  }

  lemma {:induction false} KeysAppend(ms: seq<Message>, m: Message)
    ensures Keys(ms + [m]) == Keys(ms) + {m.key}
  {
    assert (ms + [m])[|ms|] == m;
    forall k | k in Keys(ms) ensures k in Keys(ms + [m]) {
      var i :| 0 <= i < |ms| && ms[i].key == k;
      assert (ms + [m])[i].key == k;
    }
  }

  /** A key claimed by an earlier due message has no later problem. */
  lemma {:induction false} ClaimedEarlier(s: State, due: seq<Message>, i: nat)
    requires i < |s.queue| && Later(s.queue[i], s.queue[i].key)
    requires forall m :: m in due ==> exists j :: 0 <= j < i && s.queue[j] == m && Due(s, j)
    ensures s.queue[i].key !in Keys(due)
  {
    forall a | 0 <= a < |due| ensures due[a].key != s.queue[i].key {
      assert due[a] in due;
      var b :| 0 <= b < i && s.queue[b] == due[a] && Due(s, b);
      assert !Later(s.queue[i], s.queue[b].key);
    }
  }

  ghost predicate FoundDue(s: State, due: seq<Message>, i: nat)
    requires i <= |s.queue|
  {
    forall m :: m in due ==> exists j :: 0 <= j < i && s.queue[j] == m && Due(s, j)
  }

  /** Comparing with the last ID of the key finds the due messages. */
  lemma {:induction false} DueByLast(s: State, last: map<string, int>, due: seq<Message>, i: nat)
    requires i < |s.queue| && QueueOK(s.queue, s.nextID)
    requires forall key :: key in last ==> LastIs(s.queue, |s.queue|, key, last[key])
    requires forall j :: 0 <= j < |s.queue| && Later(s.queue[j], s.queue[j].key) ==> s.queue[j].key in last
    requires FoundDue(s, due, i)
    ensures FoundDue(s, due, i + 1) && (Due(s, i) ==> FoundDue(s, due + [s.queue[i]], i + 1))
    ensures var item := s.queue[i];
            var mark := if item.key in s.resolvedBefore then s.resolvedBefore[item.key] else 0;
            Due(s, i) <==>
              item.channel == Telegram && item.kind == Problem && item.key in last && item.id == last[item.key]
                           && item.id >= mark && item.key !in s.smsProblems + Keys(due)
  {
    var item := s.queue[i];
    if item.channel == Telegram && item.kind == Problem {
      assert Later(item, item.key);
      assert LastIs(s.queue, |s.queue|, item.key, last[item.key]);
      var j :| 0 <= j < |s.queue| && s.queue[j].id == last[item.key] && Later(s.queue[j], item.key)
               && NoLater(s.queue, j, |s.queue|, item.key);
      assert item.id == last[item.key] ==> i == j;
      ClaimedEarlier(s, due, i);
    }
  }

  lemma {:induction false} DueDistinct(s: State)
    ensures var due := DueItems(s);
            && (forall a :: 0 <= a < |due| ==> due[a].key !in s.smsProblems)
            && (forall a, b :: 0 <= a < b < |due| ==> due[a].key != due[b].key)
  {
    DueFromAt(s, 0);
    DueFromDistinct(s, 0);
    var due := DueFrom(s, 0);
    forall a | 0 <= a < |due| ensures due[a].key !in s.smsProblems { assert DueAt(s, 0, due[a]); }
  }

  /** Claiming every due key and giving back the rest leaves the keys that are out. */
  lemma {:induction false} ClaimedKept(s: State, due: seq<Message>, n: nat)
    requires n <= |due|
    requires forall a :: 0 <= a < |due| ==> due[a].key !in s.smsProblems
    requires forall a, b :: 0 <= a < b < |due| ==> due[a].key != due[b].key
    ensures s.smsProblems + Keys(due) - Keys(due[n..]) == s.smsProblems + Keys(due[..n])
  {
    hide Keys;
    KeysSplit(due, n);
    KeysApart(s.smsProblems, due, n);
  }

  lemma {:induction false} KeysSplit(due: seq<Message>, n: nat)
    requires n <= |due|
    ensures Keys(due) == Keys(due[..n]) + Keys(due[n..])
  {
    var a, b := due[..n], due[n..];
    forall k | k in Keys(due) ensures k in Keys(a) || k in Keys(b) {
      var i :| 0 <= i < |due| && due[i].key == k;
      if i < n { assert a[i].key == k; } else { assert b[i - n].key == k; }
    }
    forall k | k in Keys(a) ensures k in Keys(due) {
      var i :| 0 <= i < |a| && a[i].key == k;
      assert due[i].key == k;
    }
    forall k | k in Keys(b) ensures k in Keys(due) {
      var i :| 0 <= i < |b| && b[i].key == k;
      assert due[i + n].key == k;
    }
  }

  lemma {:induction false} KeysApart(keys: set<string>, due: seq<Message>, n: nat)
    requires n <= |due| && forall a :: 0 <= a < |due| ==> due[a].key !in keys
    requires forall a, b :: 0 <= a < b < |due| ==> due[a].key != due[b].key
    ensures Keys(due[..n]) !! Keys(due[n..]) && keys !! Keys(due[n..])
  {
    forall k | k in Keys(due[n..]) ensures k !in Keys(due[..n]) && k !in keys {
      var j :| 0 <= j < |due| - n && due[n..][j].key == k;
      assert due[n + j].key == k;
      forall i | 0 <= i < n ensures due[..n][i].key != k { assert due[i].key != due[n + j].key; }
    }
  }

  /** The state a fallback ends in, told apart by how many messages are out. */
  lemma {:induction false} FallbackIs(s: State, t: State, opts: Options, fb: string -> Outcome, n: nat)
    requires opts.hasSMS && n == OutCount(DueItems(s), fb)
    requires t == s.(smsProblems := s.smsProblems + Keys(DueItems(s)[..n]), log := s.log + OutEntries(DueItems(s)[..n]))
    ensures t == Fallback(s, opts, fb)
  {
    hide DueItems, OutCount, Keys, OutEntries;
  }

  /** The queue a Notify call leaves to the fallback is in order. */
  lemma {:induction false} NotifyQueueOK(s: State, opts: Options, p: Push)
    requires Inv(s)
    ensures var uid := s.sends.nextUid;
            var (r, viaSMS) := Route(s.(sends := s.sends.(nextUid := uid + 2)), opts, p, uid);
            var t := if p.kind == Resolved then ResolvedBySMS(r, opts, p.key, uid + 1, p.now, viaSMS, p.rsms) else r;
            QueueOK(t.queue, t.nextID)
  {
    hide SendsOK, Fresh, Route, ResolvedBySMS, Fallback;
    var uid := s.sends.nextUid;
    var s2 := s.(sends := s.sends.(nextUid := uid + 2));
    AllocateKeeps(s);
    RouteKeeps(s2, opts, p, uid);
    RouteSpares(s2, opts, p, uid, uid + 1);
    var (r, viaSMS) := Route(s2, opts, p, uid);
    ResolvedKeeps(r, opts, p.key, uid + 1, p.now, viaSMS, p.rsms);
  }

  lemma {:induction false} RenumberedAppend(q: seq<Message>, top: int, m: Message)
    ensures NotifierModel.Renumbered(q + [m], top) == NotifierModel.Renumbered(q, top) + [m.(id := top + 1 + |q|)]
  {
  }
}
