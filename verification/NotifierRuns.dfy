/** Whole runs of the notifier: no message is sent twice on its channel, and a
    late success removes exactly its own message, whatever was merged, expired
    or trimmed in between. */
module NotifierRuns {
  import opened NotifierModel

  // ---------------------------------------------------------------- invariant

  ghost predicate QueueOK(q: seq<Message>, nextID: int) {
    && Ascending(q)
    && nextID >= 1
    && forall i :: 0 <= i < |q| ==> 0 < q[i].id < nextID
  }

  /** Which message each queued ID stands for. */
  ghost function Index(q: seq<Message>): map<int, nat> {
    if q == [] then map[] else Index(q[1..])[q[0].id := q[0].uid]
  }

  /** Queued messages have identities of their own and were not delivered. */
  ghost predicate MessagesOK(ix: map<int, nat>, d: Sends) {
    && (forall a, b :: a in ix && b in ix && a != b ==> ix[a] != ix[b])
    && (forall a :: a in ix ==> ix[a] < d.nextUid && ix[a] !in d.delivered)
  }

  ghost predicate DeliveredOK(d: Sends) {
    forall u :: u in d.delivered ==> d.delivered[u] == 1 && u < d.nextUid
  }

  /** At most one send of a message is in progress, and it has not succeeded. */
  ghost predicate FlightsOK(d: Sends) {
    && (forall f :: f in d.flights ==> f < d.nextFlight && d.flights[f].uid < d.nextUid
                                       && d.flights[f].uid !in d.delivered)
    && (forall f, g :: f in d.flights && g in d.flights && f != g ==> d.flights[f].uid != d.flights[g].uid)
  }

  ghost predicate MarksOK(d: Sends, nextID: int) {
    forall id :: id in d.inflight ==> id < nextID && d.inflight[id] in d.flights
                                      && d.flights[d.inflight[id]].id == id
  }

  /** The send in progress of a queued message is filed under that message's
      current ID, and nothing else is. */
  ghost predicate FiledOK(ix: map<int, nat>, d: Sends) {
    && (forall a, f :: a in ix && f in d.flights && d.flights[f].uid == ix[a] ==> a in d.inflight && d.inflight[a] == f)
    && (forall a :: a in ix && a in d.inflight && d.inflight[a] in d.flights ==> d.flights[d.inflight[a]].uid == ix[a])
  }

  ghost predicate SendsOK(ix: map<int, nat>, nextID: int, d: Sends) {
    MessagesOK(ix, d) && DeliveredOK(d) && FlightsOK(d) && MarksOK(d, nextID) && FiledOK(ix, d)
  }

  ghost predicate Inv(s: State) { QueueOK(s.queue, s.nextID) && SendsOK(Index(s.queue), s.nextID, s.sends) }

  /** An identity given out but not used yet. */
  ghost predicate Fresh(ix: map<int, nat>, d: Sends, uid: nat) {
    && uid < d.nextUid && uid !in d.delivered
    && (forall a :: a in ix ==> ix[a] != uid)
    && (forall f :: f in d.flights ==> d.flights[f].uid != uid)
  }

  // ---------------------------------------------------------------- queue facts

  lemma {:induction false} IndexHas(q: seq<Message>, i: nat)
    requires Ascending(q) && i < |q|
    ensures q[i].id in Index(q) && Index(q)[q[i].id] == q[i].uid
  {
    if i > 0 {
      assert q[1..][i - 1] == q[i] && q[0].id < q[i].id;
      IndexHas(q[1..], i - 1);
    }
  }

  lemma {:induction false} IndexOnly(q: seq<Message>, a: int) returns (i: nat)
    requires a in Index(q)
    ensures i < |q| && q[i].id == a
  {
    if q[0].id == a { i := 0; } else { i := IndexOnly(q[1..], a); i := i + 1; }
  }

  lemma {:induction false} AppendIndex(q: seq<Message>, m: Message)
    requires forall i :: 0 <= i < |q| ==> q[i].id != m.id
    ensures Index(q + [m]) == Index(q)[m.id := m.uid]
  {
    if q == [] {
      assert q + [m] == [m];
    } else {
      AppendIndex(q[1..], m);
      assert (q + [m])[1..] == q[1..] + [m];
      assert q[0].id != m.id;
    }
  }

  lemma {:induction false} IndexAbove(q: seq<Message>, id: int)
    requires forall i :: 0 <= i < |q| ==> q[i].id > id
    ensures id !in Index(q)
  {
    if q != [] { IndexAbove(q[1..], id); }
  }

  /** Removing by ID drops exactly the message with that ID. */
  lemma {:induction false} RemoveIn(q: seq<Message>, id: int)
    requires Ascending(q)
    ensures Ascending(Remove(q, id))
    ensures forall m :: m in Remove(q, id) <==> m in q && m.id != id
  {
    if q != [] {
      assert q == [q[0]] + q[1..];
      if q[0].id == id {
        forall m | m in q[1..] ensures m.id != id {}
      } else {
        RemoveIn(q[1..], id);
        var r := Remove(q[1..], id);
        forall i | 0 <= i < |r| ensures q[0].id < r[i].id { assert r[i] in q[1..]; }
      }
    }
  }

  lemma {:induction false} RemoveIndex(q: seq<Message>, id: int)
    requires Ascending(q)
    ensures Index(Remove(q, id)) == Index(q) - {id}
  {
    if q != [] {
      if q[0].id == id {
        IndexAbove(q[1..], id);
      } else {
        RemoveIndex(q[1..], id);
      }
    }
  }

  lemma {:induction false} BumpIndex(q: seq<Message>, id: int)
    ensures Index(Bump(q, id)) == Index(q)
  {
    if q != [] {
      BumpIndex(q[1..], id);
      assert Bump(q, id)[1..] == Bump(q[1..], id);
    }
  }

  lemma {:induction false} NotBeforeIn(q: seq<Message>, cutoff: int)
    requires Ascending(q)
    ensures forall m :: m in NotBefore(q, cutoff) <==> m in q && m.createdAt >= cutoff
    ensures Ascending(NotBefore(q, cutoff))
  {
    if q != [] {
      NotBeforeIn(q[1..], cutoff);
      assert q == [q[0]] + q[1..];
      var r := NotBefore(q[1..], cutoff);
      forall i | 0 <= i < |r| ensures q[0].id < r[i].id { assert r[i] in q[1..]; }
    }
  }

  ghost predicate Submap(small: map<int, nat>, ix: map<int, nat>) {
    forall a :: a in small ==> a in ix && ix[a] == small[a]
  }

  lemma {:induction false} SelectedIndex(r: seq<Message>, q: seq<Message>)
    requires Ascending(q) && Ascending(r) && forall m :: m in r ==> m in q
    ensures Submap(Index(r), Index(q))
  {
    forall a | a in Index(r) ensures a in Index(q) && Index(q)[a] == Index(r)[a] {
      var i := IndexOnly(r, a);
      IndexHas(r, i);
      assert r[i] in q;
      var j :| 0 <= j < |q| && q[j] == r[i];
      IndexHas(q, j);
    }
  }

  // ---------------------------------------------------------------- dropping

  /** Dropping messages keeps every property of the sends. */
  lemma {:induction false} DropKeeps(small: map<int, nat>, ix: map<int, nat>, nextID: int, d: Sends)
    requires SendsOK(ix, nextID, d) && Submap(small, ix)
    ensures SendsOK(small, nextID, d)
  {
  }

  lemma {:induction false} SelectKeeps(r: seq<Message>, s: State)
    requires Inv(s) && Ascending(r) && forall m :: m in r ==> m in s.queue
    ensures Inv(s.(queue := r))
  {
    SelectedIndex(r, s.queue);
    DropKeeps(Index(r), Index(s.queue), s.nextID, s.sends);
    forall i | 0 <= i < |r| ensures 0 < r[i].id < s.nextID { assert r[i] in s.queue; }
  }

  lemma {:induction false} TrimKeeps(s: State)
    requires Inv(s)
    ensures Inv(s.(queue := Trimmed(s.queue)))
  {
    SelectKeeps(Trimmed(s.queue), s);
  }

  lemma {:induction false} RemoveKeeps(s: State, id: int)
    requires Inv(s)
    ensures Inv(s.(queue := Remove(s.queue, id)))
  {
    RemoveIn(s.queue, id);
    SelectKeeps(Remove(s.queue, id), s);
  }

  lemma {:induction false} ExpireKeeps(s: State, cutoff: int)
    requires Inv(s)
    ensures Inv(Expire(s, cutoff))
  {
    NotBeforeIn(s.queue, cutoff);
    SelectKeeps(NotBefore(s.queue, cutoff), s);
  }

  lemma {:induction false} BumpKeeps(s: State, id: int)
    requires Inv(s)
    ensures Inv(s.(queue := Bump(s.queue, id)))
  {
    BumpIndex(s.queue, id);
  }

  // ---------------------------------------------------------------- sends

  /** Filing a send of a queued message that has none in progress. */
  lemma {:induction false} FileKeeps(ix: map<int, nat>, nextID: int, d: Sends, id: int)
    requires SendsOK(ix, nextID, d) && id in ix && id < nextID && id !in d.inflight
    ensures SendsOK(ix, nextID, d.File(id, ix[id]))
  {
    var uid := ix[id];
    forall f | f in d.flights ensures d.flights[f].uid != uid {}
    hide FlightsOK, MarksOK, FiledOK;
    FileFlights(d, id, uid);
    FileMarks(d, nextID, id, uid);
    FileFiled(ix, d, id);
  }

  lemma {:induction false} FileFlights(d: Sends, id: int, uid: nat)
    requires FlightsOK(d) && uid < d.nextUid && uid !in d.delivered
    requires forall f :: f in d.flights ==> d.flights[f].uid != uid
    ensures FlightsOK(d.File(id, uid))
  {
  }

  lemma {:induction false} FileMarks(d: Sends, nextID: int, id: int, uid: nat)
    requires FlightsOK(d) && MarksOK(d, nextID) && id < nextID
    ensures MarksOK(d.File(id, uid), nextID)
  {
  }

  lemma {:induction false} FileFiled(ix: map<int, nat>, d: Sends, id: int)
    requires FlightsOK(d) && MessagesOK(ix, d) && FiledOK(ix, d) && id in ix && id !in d.inflight
    requires forall i :: i in d.inflight ==> d.inflight[i] in d.flights
    ensures FiledOK(ix, d.File(id, ix[id]))
  {
  }

  /** Delivering a message that is not queued and has no send in progress. */
  lemma {:induction false} DeliverKeeps(ix: map<int, nat>, nextID: int, d: Sends, uid: nat)
    requires SendsOK(ix, nextID, d) && Fresh(ix, d, uid)
    ensures SendsOK(ix, nextID, d.Deliver(uid))
  {
  }

  lemma {:induction false} QueueKeeps(ix: map<int, nat>, nextID: int, d: Sends, uid: nat)
    requires SendsOK(ix, nextID, d) && Fresh(ix, d, uid)
    requires forall a :: a in ix ==> a < nextID
    ensures SendsOK(ix[nextID := uid], nextID + 1, d) && nextID !in d.inflight
  {
  }

  lemma {:induction false} EnqueueKeeps(
    s: State, channel: Channel, kind: Kind, key: string, uid: nat, now: int, o: Outcome)
    requires Inv(s) && Fresh(Index(s.queue), s.sends, uid)
    ensures Inv(Enqueue(s, channel, kind, key, uid, now, o))
  {
    hide SendsOK, Fresh, Index, QueueOK, Trimmed, Overflow;
    var m := Message(s.nextID, uid, now, channel, kind, key, 0);
    AppendKeeps(s, m);
    var t := s.(queue := s.queue + [m], nextID := s.nextID + 1, log := s.log + [Queued(uid, key)]);
    if o.Abandoned? { FileKeeps(Index(t.queue), t.nextID, t.sends, m.id); }
    TrimKeeps(Track(t, m.id, uid, o));
  }

  lemma {:induction false} AppendKeeps(s: State, m: Message)
    requires Inv(s) && m.id == s.nextID && Fresh(Index(s.queue), s.sends, m.uid)
    ensures var q := s.queue + [m];
            && QueueOK(q, s.nextID + 1) && SendsOK(Index(q), s.nextID + 1, s.sends)
            && m.id in Index(q) && Index(q)[m.id] == m.uid && m.id !in s.sends.inflight
  {
    hide SendsOK, Fresh;
    var ix := Index(s.queue);
    forall a | a in ix ensures a < s.nextID { var i := IndexOnly(s.queue, a); }
    AppendIndex(s.queue, m);
    QueueKeeps(ix, s.nextID, s.sends, m.uid);
  }

  /** One message of a flush; `m` is the snapshot's copy of a message still in
      the queue. */
  lemma {:induction false} FlushOneKeeps(s: State, blocked: set<Channel>, i: nat, o: Outcome)
    requires Inv(s) && i < |s.queue|
    ensures Inv(FlushOne(s, blocked, s.queue[i], o).0)
  {
    hide Index, Remove, Bump, Stale, Health, SendsOK;
    var m := s.queue[i];
    IndexHas(s.queue, i);
    if m.channel in blocked || m.id in s.sends.inflight {
    } else if o.Sent? || Stale(s, m) {
      RemoveKeeps(s, m.id);
      RemoveIndex(s.queue, m.id);
      SentIsFresh(Index(s.queue), s.nextID, s.sends, m.id);
      DeliverKeeps(Index(s.queue) - {m.id}, s.nextID, s.sends, m.uid);
    } else {
      BumpKeeps(s, m.id);
      FileKeeps(Index(s.queue), s.nextID, s.sends, m.id);
      BumpIndex(s.queue, m.id);
    }
  }

  /** A queued message with no send in progress, once out of the queue. */
  lemma {:induction false} SentIsFresh(ix: map<int, nat>, nextID: int, d: Sends, id: int)
    requires SendsOK(ix, nextID, d) && id in ix && id !in d.inflight
    ensures SendsOK(ix - {id}, nextID, d) && Fresh(ix - {id}, d, ix[id])
  {
  }

  ghost predicate NoID(q: seq<Message>, id: int) { forall i :: 0 <= i < |q| ==> q[i].id != id }

  lemma {:induction false} RemoveAround(done: seq<Message>, m: Message, rest: seq<Message>)
    requires NoID(done, m.id)
    ensures Remove(done + [m] + rest, m.id) == done + rest
  {
    if done == [] {
      assert done + [m] + rest == [m] + rest && done + rest == rest;
      RemoveFirst(m, rest, m.id);
    } else {
      hide Remove;
      var (first, tail) := (done[0], done[1..]);
      assert done == [first] + tail && done + [m] + rest == [first] + (tail + [m] + rest);
      RemoveAround(tail, m, rest);
      RemoveFirst(first, tail + [m] + rest, m.id);
      assert [first] + (tail + rest) == done + rest;
    }
  }

  lemma {:induction false} RemoveFirst(m: Message, q: seq<Message>, id: int)
    ensures Remove([m] + q, id) == if m.id == id then q else [m] + Remove(q, id)
  {
    assert ([m] + q)[1..] == q;
  }

  lemma {:induction false} BumpNone(q: seq<Message>, id: int)
    requires NoID(q, id)
    ensures Bump(q, id) == q
  {
  }

  lemma {:induction false} BumpAround(done: seq<Message>, m: Message, rest: seq<Message>)
    requires NoID(done, m.id) && NoID(rest, m.id)
    ensures Bump(done + [m] + rest, m.id) == done + [m.(attempts := m.attempts + 1)] + rest
  {
    var q := done + [m] + rest;
    if done == [] {
      assert q == [m] + rest;
      BumpNone(rest, m.id);
      assert q[1..] == rest;
    } else {
      assert q[0] == done[0] && q[1..] == done[1..] + [m] + rest;
      BumpAround(done[1..], m, rest);
    }
  }

  lemma {:induction false} AscendingAround(done: seq<Message>, m: Message, rest: seq<Message>)
    requires Ascending(done + [m] + rest)
    ensures NoID(done, m.id) && NoID(rest, m.id)
  {
    var q := done + [m] + rest;
    assert q[|done|] == m;
    forall i | 0 <= i < |done| ensures done[i].id != m.id { assert q[i] == done[i]; }
    forall i | 0 <= i < |rest| ensures rest[i].id != m.id { assert q[|done| + 1 + i] == rest[i]; }
  }

  /** One message of a flush leaves the messages around it in place. */
  lemma {:induction false} FlushOneRest(
    s: State, blocked: set<Channel>, done: seq<Message>, m: Message, rest: seq<Message>, o: Outcome)
    requires Ascending(s.queue) && s.queue == done + [m] + rest
    ensures FlushOne(s, blocked, m, o).0.queue == done + Kept(s, blocked, m, o) + rest
  {
    AscendingAround(done, m, rest);
    RemoveAround(done, m, rest);
    BumpAround(done, m, rest);
    assert done + [] == done;
  }

  /** What a flush keeps of one message: nothing when it was sent or stale. */
  ghost function Kept(s: State, blocked: set<Channel>, m: Message, o: Outcome): seq<Message> {
    if m.channel in blocked || m.id in s.sends.inflight then [m]
    else if Stale(s, m) || o.Sent? then []
    else [m.(attempts := m.attempts + 1)]
  }

  lemma {:induction false} FlushKeeps(
    s: State, blocked: set<Channel>, done: seq<Message>, pending: seq<Message>, o: int -> Outcome)
    requires Inv(s) && s.queue == done + pending
    ensures Inv(FlushAll(s, blocked, pending, o))
    decreases |pending|
  {
    if pending != [] {
      var r := o(pending[0].id);
      assert s.queue[|done|] == pending[0];
      FlushOneKeeps(s, blocked, |done|, r);
      assert s.queue == done + [pending[0]] + pending[1..];
      FlushOneRest(s, blocked, done, pending[0], pending[1..], r);
      var (t, b) := FlushOne(s, blocked, pending[0], r);
      FlushKeeps(t, b, done + Kept(s, blocked, pending[0], r), pending[1..], o);
    }
  }

  /** A late failure leaves the message queued, with no send in progress. */
  lemma {:induction false} LandFailedKeeps(ix: map<int, nat>, nextID: int, d: Sends, f: nat)
    requires SendsOK(ix, nextID, d) && f in d.flights
    ensures SendsOK(ix, nextID, d.Land(f, false))
  {
    var e := d.Land(f, false);
    forall id | id in e.inflight ensures e.inflight[id] != f { assert d.flights[d.inflight[id]].id == id; }
    assert MarksOK(e, nextID);
    assert FiledOK(ix, e);
  }

  /** A late success: the flight's message leaves the queue, if it is still
      there. */
  lemma {:induction false} LandSentKeeps(ix: map<int, nat>, nextID: int, d: Sends, f: nat)
    requires SendsOK(ix, nextID, d) && f in d.flights
    ensures SendsOK(if d.Filed(f) then ix - {d.flights[f].id} else ix, nextID, d.Land(f, true))
  {
    var small := if d.Filed(f) then ix - {d.flights[f].id} else ix;
    var uid := d.flights[f].uid;
    DropKeeps(small, ix, nextID, d);
    LandFailedKeeps(small, nextID, d, f);
    var e := d.Land(f, false);
    forall a | a in small ensures small[a] != uid {}
    DeliverKeeps(small, nextID, e, uid);
    assert e.Deliver(uid) == d.Land(f, true);
  }

  lemma {:induction false} SettleKeeps(s: State, f: nat, ok: bool)
    requires Inv(s) && f in s.sends.flights
    ensures Inv(Settle(s, f, ok))
  {
    var id := s.sends.flights[f].id;
    LandFailedKeeps(Index(s.queue), s.nextID, s.sends, f);
    LandSentKeeps(Index(s.queue), s.nextID, s.sends, f);
    BumpKeeps(s, id);
    BumpIndex(s.queue, id);
    RemoveKeeps(s, id);
    RemoveIndex(s.queue, id);
  }

  // ---------------------------------------------------------------- merge

  lemma {:induction false} BeforeAt(q: seq<Message>, i: nat)
    requires Ascending(q) && i < |q|
    ensures Before(q, q[i].id) == i
  {
    if i > 0 {
      assert q[0].id < q[i].id && q[1..][i - 1] == q[i];
      BeforeAt(q[1..], i - 1);
    }
  }

  /** The queue of a merge before it is trimmed: stored rows, then the in-memory
      messages, renumbered. */
  ghost function MergedQueue(s: State, stored: seq<Message>): seq<Message> {
    Identified(stored, s.sends.nextUid) + Renumbered(s.queue, Top(stored))
  }

  lemma {:induction false} MergedAscending(s: State, stored: seq<Message>)
    requires FromStore(stored)
    ensures var next := Top(stored) + |s.queue| + 1;
            QueueOK(MergedQueue(s, stored), if s.nextID > next then s.nextID else next)
  {
    var m := MergedQueue(s, stored);
    forall i | 0 <= i < |m|
      ensures 0 < m[i].id <= Top(stored) + |s.queue|
    {
      if i < |stored| { assert m[i].id == stored[i].id; }
    }
  }

  /** Every ID of the merged queue is a stored row's or a renumbered message's. */
  lemma {:induction false} MergedAt(s: State, stored: seq<Message>, a: int) returns (i: nat)
    requires FromStore(stored) && a in Index(MergedQueue(s, stored))
    ensures i < |stored| + |s.queue|
    ensures i < |stored| ==> a == stored[i].id <= Top(stored) && Index(MergedQueue(s, stored))[a] == s.sends.nextUid + i
    ensures i >= |stored| ==> a == Top(stored) + 1 + (i - |stored|)
                              && Index(MergedQueue(s, stored))[a] == s.queue[i - |stored|].uid
  {
    var m := MergedQueue(s, stored);
    i := IndexOnly(m, a);
    MergedAscending(s, stored);
    IndexHas(m, i);
  }

  lemma {:induction false} RenumberedMark(inflight: map<int, nat>, q: seq<Message>, top: int, id: int)
    ensures id in RenumberMarks(inflight, q, top) <==>
            top < id <= top + |q| && q[id - top - 1].id in inflight
    ensures id in RenumberMarks(inflight, q, top) ==>
            RenumberMarks(inflight, q, top)[id] == inflight[q[id - top - 1].id]
  {
    if q != [] {
      RenumberedMark(inflight, q[..|q| - 1], top, id);
    }
  }

  /** The mark and the flight of an in-memory message after a merge. */
  lemma {:induction false} RenumberedFlight(q: seq<Message>, nextID: int, d: Sends, top: int, i: nat)
    requires Ascending(q) && MarksOK(d, nextID) && i < |q| && q[i].id in d.inflight
    ensures d.inflight[q[i].id] in d.flights
    ensures var f := d.inflight[q[i].id];
            RenumberFlight(d, q, top, f) == d.flights[f].(id := top + 1 + i)
  {
    BeforeAt(q, i);
    assert HasID(q, q[i].id);
  }

  lemma {:induction false} MergeMessagesOK(s: State, stored: seq<Message>)
    requires Inv(s) && FromStore(stored)
    ensures MessagesOK(Index(MergedQueue(s, stored)), s.sends.(nextUid := s.sends.nextUid + |stored|))
  {
    hide MergedQueue, Index, MarksOK, FiledOK, FlightsOK, FromStore;
    var ix := Index(MergedQueue(s, stored));
    forall a, b | a in ix && b in ix && a != b ensures ix[a] != ix[b] {
      var i := MergedAt(s, stored, a);
      var j := MergedAt(s, stored, b);
      if i >= |stored| { IndexHas(s.queue, i - |stored|); }
      if j >= |stored| { IndexHas(s.queue, j - |stored|); }
    }
    forall a | a in ix ensures ix[a] < s.sends.nextUid + |stored| && ix[a] !in s.sends.delivered {
      var i := MergedAt(s, stored, a);
      if i >= |stored| { IndexHas(s.queue, i - |stored|); }
    }
  }

  lemma {:induction false} MergeMarksOK(q: seq<Message>, nextID: int, d: Sends, top: int)
    requires Ascending(q) && MarksOK(d, nextID)
    ensures MarksOK(RenumberSends(d, q, top), top + |q| + 1)
  {
    var e := RenumberSends(d, q, top);
    forall id | id in e.inflight
      ensures id < top + |q| + 1 && e.inflight[id] in e.flights && e.flights[e.inflight[id]].id == id
    {
      RenumberedMark(d.inflight, q, top, id);
      RenumberedFlight(q, nextID, d, top, id - top - 1);
    }
  }

  lemma {:induction false} MergeFiledTo(s: State, stored: seq<Message>, a: int, f: nat)
    requires Inv(s) && FromStore(stored) && a in Index(MergedQueue(s, stored)) && f in s.sends.flights
    requires s.sends.flights[f].uid == Index(MergedQueue(s, stored))[a]
    ensures var marks := RenumberMarks(s.sends.inflight, s.queue, Top(stored));
            a in marks && marks[a] == f
  {
    hide MergedQueue, Index, RenumberMarks, FromStore, Ascending;
    var i := MergedAt(s, stored, a);
    RenumberedMark(s.sends.inflight, s.queue, Top(stored), a);
    assert i >= |stored|;
    IndexHas(s.queue, i - |stored|);
  }

  lemma {:induction false} MergeFiledFrom(s: State, stored: seq<Message>, a: int)
    requires Inv(s) && FromStore(stored) && a in Index(MergedQueue(s, stored))
    requires a in RenumberMarks(s.sends.inflight, s.queue, Top(stored))
    ensures var f := RenumberMarks(s.sends.inflight, s.queue, Top(stored))[a];
            f in s.sends.flights && s.sends.flights[f].uid == Index(MergedQueue(s, stored))[a]
  {
    hide MergedQueue, Index, RenumberMarks, FromStore, Ascending;
    var i := MergedAt(s, stored, a);
    RenumberedMark(s.sends.inflight, s.queue, Top(stored), a);
    assert i >= |stored|;
    IndexHas(s.queue, i - |stored|);
  }

  lemma {:induction false} MergeFiledOK(s: State, stored: seq<Message>)
    requires Inv(s) && FromStore(stored)
    ensures FiledOK(Index(MergedQueue(s, stored)), RenumberSends(s.sends, s.queue, Top(stored)))
  {
    var ix := Index(MergedQueue(s, stored));
    var d, e := s.sends, RenumberSends(s.sends, s.queue, Top(stored));
    forall f | f in e.flights ensures f in d.flights && e.flights[f].uid == d.flights[f].uid {}
    forall a, f | a in ix && f in e.flights && e.flights[f].uid == ix[a]
      ensures a in e.inflight && e.inflight[a] == f
    {
      MergeFiledTo(s, stored, a, f);
    }
    forall a | a in ix && a in e.inflight && e.inflight[a] in e.flights
      ensures e.flights[e.inflight[a]].uid == ix[a]
    {
      MergeFiledFrom(s, stored, a);
    }
  }

  lemma {:induction false} MergeFlightsOK(d: Sends, q: seq<Message>, top: int)
    requires FlightsOK(d)
    ensures FlightsOK(RenumberSends(d, q, top))
  {
    var e := RenumberSends(d, q, top);
    assert forall f :: f in e.flights ==> f in d.flights && e.flights[f].uid == d.flights[f].uid;
  }

  /** More identities given out, and a higher next ID, take nothing back. */
  lemma {:induction false} MoreGivenOut(ix: map<int, nat>, d: Sends, nextID: int, e: Sends, nextID': int)
    requires FlightsOK(d) && MarksOK(d, nextID) && FiledOK(ix, d)
    requires e == d.(nextUid := e.nextUid) && e.nextUid >= d.nextUid && nextID' >= nextID
    ensures FlightsOK(e) && MarksOK(e, nextID') && FiledOK(ix, e)
  {
  }

  lemma {:induction false} MessagesSame(ix: map<int, nat>, d: Sends, e: Sends)
    requires MessagesOK(ix, d) && e.nextUid == d.nextUid && e.delivered == d.delivered
    ensures MessagesOK(ix, e)
  {
  }

  lemma {:induction false} MergeKeeps(s: State, stored: seq<Message>)
    requires Inv(s) && FromStore(stored)
    ensures Inv(Merge(s, stored))
  {
    hide MessagesOK, MarksOK, FiledOK, FlightsOK, Index, RenumberMarks, FromStore, Trimmed;
    var t, ix := Merge(s, stored), Index(MergedQueue(s, stored));
    var e := RenumberSends(s.sends, s.queue, Top(stored));
    MergedAscending(s, stored);
    MergeMessagesOK(s, stored);
    MergeMarksOK(s.queue, s.nextID, s.sends, Top(stored));
    MergeFiledOK(s, stored);
    MergeFlightsOK(s.sends, s.queue, Top(stored));
    MoreGivenOut(ix, e, Top(stored) + |s.queue| + 1, t.sends, t.nextID);
    MessagesSame(ix, s.sends.(nextUid := s.sends.nextUid + |stored|), t.sends);
    TrimKeeps(t.(queue := MergedQueue(s, stored)));
  }

  // ---------------------------------------------------------------- notify

  /** The route of a message's own delivery uses at most its own identity. */
  lemma {:induction false} SendTelegramKeeps(
    s: State, opts: Options, kind: Kind, key: string, uid: nat, now: int, o: Outcome)
    requires Inv(s) && Fresh(Index(s.queue), s.sends, uid)
    ensures Inv(SendTelegram(s, opts, kind, key, uid, now, o))
  {
    if s.offline || !opts.hasTelegram {
      EnqueueKeeps(s.(failing := true), Telegram, kind, key, uid, now, PastDeadline);
    } else {
      var h := s.(failing := Health(s.failing, o));
      DeliverKeeps(Index(s.queue), s.nextID, s.sends, uid);
      EnqueueKeeps(h, Telegram, kind, key, uid, now, o);
    }
  }

  lemma {:induction false} SendSMSKeeps(s: State, kind: Kind, key: string, uid: nat, now: int, o: Outcome)
    requires Inv(s) && Fresh(Index(s.queue), s.sends, uid)
    ensures Inv(SendSMS(s, kind, key, uid, now, o))
  {
    DeliverKeeps(Index(s.queue), s.nextID, s.sends, uid);
    EnqueueKeeps(s, SMS, kind, key, uid, now, o);
  }

  lemma {:induction false} SendEitherKeeps(
    s: State, opts: Options, kind: Kind, key: string, uid: nat, now: int, tlg: Outcome, sms: Outcome)
    requires Inv(s) && Fresh(Index(s.queue), s.sends, uid)
    ensures Inv(SendEither(s, opts, kind, key, uid, now, tlg, sms).0)
  {
    hide QueueOK, SendsOK, Fresh, Enqueue;
    SendTelegramKeeps(s, opts, kind, key, uid, now, tlg);
    DeliverKeeps(Index(s.queue), s.nextID, s.sends, uid);
    var tried := !s.offline && opts.hasTelegram;
    var h := if tried then s.(failing := Health(s.failing, tlg)) else s;
    var c := if kind == Problem && sms.Abandoned? then h.(smsProblems := h.smsProblems + {key}) else h;
    EnqueueKeeps(h, Telegram, kind, key, uid, now, PastDeadline);
    EnqueueKeeps(c, Telegram, kind, key, uid, now, tlg);
    EnqueueKeeps(c.(failing := true), Telegram, kind, key, uid, now, PastDeadline);
  }

  /** Everything after the route leaves a second identity unused. */
  ghost predicate Spare(s: State, uid: nat) { Fresh(Index(s.queue), s.sends, uid) }

  lemma {:induction false} EnqueueSpares(
    s: State, channel: Channel, kind: Kind, key: string, uid: nat, now: int, o: Outcome, v: nat)
    requires Inv(s) && Spare(s, v) && uid != v
    ensures Spare(Enqueue(s, channel, kind, key, uid, now, o), v)
  {
    var m := Message(s.nextID, uid, now, channel, kind, key, 0);
    AppendIndex(s.queue, m);
    var q := s.queue + [m];
    assert Ascending(q);
    assert Ascending(Trimmed(q)) && forall x :: x in Trimmed(q) ==> x in q;
    SelectedIndex(Trimmed(q), q);
  }

  lemma {:induction false} RouteKeeps(s: State, opts: Options, p: Push, uid: nat)
    requires Inv(s) && Fresh(Index(s.queue), s.sends, uid)
    ensures Inv(Route(s, opts, p, uid).0)
  {
    hide QueueOK, SendsOK, Fresh, Enqueue;
    match p.mode
    case ViaSMS =>
      if opts.hasSMS {
        SendSMSKeeps(s, p.kind, p.key, uid, p.now, p.sms);
      } else {
        SendTelegramKeeps(s, opts, p.kind, p.key, uid, p.now, p.tlg);
      }
    case ViaTelegramOrSMS => SendEitherKeeps(s, opts, p.kind, p.key, uid, p.now, p.tlg, p.sms);
    case ViaTelegram => SendTelegramKeeps(s, opts, p.kind, p.key, uid, p.now, p.tlg);
  }

  lemma {:induction false} SendTelegramSpares(
    s: State, opts: Options, kind: Kind, key: string, uid: nat, now: int, o: Outcome, v: nat)
    requires Inv(s) && Spare(s, v) && uid != v
    ensures Spare(SendTelegram(s, opts, kind, key, uid, now, o), v)
  {
    hide QueueOK, SendsOK, Enqueue, Index;
    EnqueueSpares(s.(failing := true), Telegram, kind, key, uid, now, PastDeadline, v);
    EnqueueSpares(s.(failing := Health(s.failing, o)), Telegram, kind, key, uid, now, o, v);
  }

  lemma {:induction false} SendEitherSpares(
    s: State, opts: Options, kind: Kind, key: string, uid: nat, now: int, tlg: Outcome, sms: Outcome, v: nat)
    requires Inv(s) && Spare(s, v) && uid != v
    ensures Spare(SendEither(s, opts, kind, key, uid, now, tlg, sms).0, v)
  {
    hide QueueOK, SendsOK, Enqueue, Index;
    SendTelegramSpares(s, opts, kind, key, uid, now, tlg, v);
    var tried := !s.offline && opts.hasTelegram;
    var h := if tried then s.(failing := Health(s.failing, tlg)) else s;
    var c := if kind == Problem && sms.Abandoned? then h.(smsProblems := h.smsProblems + {key}) else h;
    EnqueueSpares(h, Telegram, kind, key, uid, now, PastDeadline, v);
    EnqueueSpares(c, Telegram, kind, key, uid, now, tlg, v);
    EnqueueSpares(c.(failing := true), Telegram, kind, key, uid, now, PastDeadline, v);
  }

  lemma {:induction false} RouteSpares(s: State, opts: Options, p: Push, uid: nat, v: nat)
    requires Inv(s) && Spare(s, v) && uid != v
    ensures Spare(Route(s, opts, p, uid).0, v)
  {
    hide Inv, Enqueue, Index, SendTelegram, SendEither;
    SendTelegramSpares(s, opts, p.kind, p.key, uid, p.now, p.tlg, v);
    SendEitherSpares(s, opts, p.kind, p.key, uid, p.now, p.tlg, p.sms, v);
    EnqueueSpares(s, SMS, p.kind, p.key, uid, p.now, p.sms, v);
  }

  lemma {:induction false} AllocateKeeps(s: State)
    requires Inv(s)
    ensures var d := s.sends.(nextUid := s.sends.nextUid + 2);
            && Inv(s.(sends := d)) && Fresh(Index(s.queue), d, s.sends.nextUid)
            && Fresh(Index(s.queue), d, s.sends.nextUid + 1)
  {
  }

  lemma {:induction false} NotifyKeeps(s: State, opts: Options, p: Push)
    requires Inv(s)
    ensures Inv(Notify(s, opts, p))
  {
    hide Inv, Fresh, Route, ResolvedBySMS, Fallback;
    var uid := s.sends.nextUid;
    var s2 := s.(sends := s.sends.(nextUid := uid + 2));
    AllocateKeeps(s);
    RouteKeeps(s2, opts, p, uid);
    RouteSpares(s2, opts, p, uid, uid + 1);
    var (r, viaSMS) := Route(s2, opts, p, uid);
    ResolvedKeeps(r, opts, p.key, uid + 1, p.now, viaSMS, p.rsms);
    var t := if p.kind == Resolved then ResolvedBySMS(r, opts, p.key, uid + 1, p.now, viaSMS, p.rsms) else r;
    FallbackKeeps(t, opts, p.fb);
    assert Notify(s, opts, p) == Fallback(t, opts, p.fb);
  }

  lemma {:induction false} ResolvedKeeps(
    s: State, opts: Options, key: string, uid: nat, now: int, viaSMS: bool, o: Outcome)
    requires Inv(s) && Fresh(Index(s.queue), s.sends, uid)
    ensures Inv(ResolvedBySMS(s, opts, key, uid, now, viaSMS, o))
  {
    SendSMSKeeps(MarkKey(s, key), Resolved, key, uid, now, o);
  }

  lemma {:induction false} FallbackKeeps(s: State, opts: Options, fb: string -> Outcome)
    requires Inv(s)
    ensures Inv(Fallback(s, opts, fb))
  {
  }

  // ---------------------------------------------------------------- runs

  lemma {:induction false} NextKeeps(s: State, opts: Options, step: Step)
    requires Inv(s) && Enabled(s, step)
    ensures Inv(Next(s, opts, step))
  {
    hide SendsOK, QueueOK, Index, Notify, FlushAll, Merge, Expire, Settle, DueItems, OutCount;
    match step
    case DoNotify(p) => NotifyKeeps(s, opts, p);
    case DoFlush(o, fb) =>
      assert s.queue == [] + s.queue;
      FlushKeeps(s, InitiallyBlocked(s, opts), [], s.queue, o);
    case DoMerge(stored) => MergeKeeps(s, stored);
    case DoExpire(cutoff) => ExpireKeeps(s, cutoff);
    case DoSettle(f, ok) => SettleKeeps(s, f, ok);
    case _ =>
  }

  lemma {:induction false} Reachable(opts: Options, states: seq<State>, steps: seq<Step>, k: nat)
    requires Run(opts, states, steps) && k < |states|
    ensures Inv(states[k])
  {
    if k > 0 {
      Reachable(opts, states, steps, k - 1);
      NextKeeps(states[k - 1], opts, steps[k - 1]);
    }
  }

  /** In every run no message is sent successfully twice on its channel, and a
      message still queued was not sent at all. */
  lemma {:induction false} NeverSentTwice(opts: Options, states: seq<State>, steps: seq<Step>, k: nat)
    requires Run(opts, states, steps) && k < |states|
    ensures forall u :: states[k].sends.delivered[u] <= 1
    ensures forall i :: 0 <= i < |states[k].queue| ==> states[k].sends.delivered[states[k].queue[i].uid] == 0
  {
    Reachable(opts, states, steps, k);
    var s := states[k];
    forall i | 0 <= i < |s.queue| ensures s.sends.delivered[s.queue[i].uid] == 0 { IndexHas(s.queue, i); }
  }

  /** In every run a late success removes exactly the message it is a send of,
      and nothing when that message left the queue; a late failure only counts an
      attempt of that message. */
  lemma {:induction false} LateResultIsItsOwn(opts: Options, states: seq<State>, steps: seq<Step>, k: nat, f: nat)
    requires Run(opts, states, steps) && k < |states| && f in states[k].sends.flights
    ensures var s, uid := states[k], states[k].sends.flights[f].uid;
            && (forall m :: m in Settle(s, f, true).queue <==> m in s.queue && m.uid != uid)
            && Ascending(Settle(s, f, true).queue)
            && |Settle(s, f, false).queue| == |s.queue|
            && forall i :: 0 <= i < |s.queue| ==>
                 Settle(s, f, false).queue[i] ==
                 if s.queue[i].uid == uid then s.queue[i].(attempts := s.queue[i].attempts + 1) else s.queue[i]
    ensures forall ok :: LateTells(states[k], Settle(states[k], f, ok), states[k].sends.flights[f].uid, f, ok)
  {
    hide Next, Enabled, Index, Remove, Removed, Inv;
    Reachable(opts, states, steps, k);
    var s := states[k];
    OwnMessage(s, f);
    RemoveIn(s.queue, s.sends.flights[f].id);
    forall ok ensures LateTells(s, Settle(s, f, ok), s.sends.flights[f].uid, f, ok) { LateRest(s, f, ok); }
  }

  /** A late success is counted, and is Telegram's own when the message was queued for
      it; either way the message may be sent again. */
  ghost predicate LateTells(s: State, t: State, uid: nat, f: nat, ok: bool) {
    && t.sends.delivered == s.sends.delivered + (if ok then multiset{uid} else multiset{})
    && t.failing == (s.failing && !(ok && QueuedFor(s.queue, uid, Telegram)))
    && t.sends.flights == s.sends.flights - {f}
    && forall i :: 0 <= i < |s.queue| && s.queue[i].uid == uid ==> s.queue[i].id !in t.sends.inflight
  }

  ghost predicate QueuedFor(q: seq<Message>, uid: nat, channel: Channel) {
    exists i :: 0 <= i < |q| && q[i].uid == uid && q[i].channel == channel
  }

  lemma {:induction false} LateRest(s: State, f: nat, ok: bool)
    requires Inv(s) && f in s.sends.flights
    ensures LateTells(s, Settle(s, f, ok), s.sends.flights[f].uid, f, ok)
  {
    hide Inv, Remove, Removed, Bump;
    OwnMessage(s, f);
    var (uid, id) := (s.sends.flights[f].uid, s.sends.flights[f].id);
    if s.sends.Filed(f) {
      assert QueuedOn(s.queue, id, Telegram) <==> QueuedFor(s.queue, uid, Telegram);
    }
  }

  /** A flight's message is the one its ID names, while the flight is filed. */
  lemma {:induction false} OwnMessage(s: State, f: nat)
    requires Inv(s) && f in s.sends.flights
    ensures Ascending(s.queue)
    ensures forall i :: 0 <= i < |s.queue| ==>
              (s.queue[i].uid == s.sends.flights[f].uid <==> s.sends.Filed(f) && s.queue[i].id == s.sends.flights[f].id)
  {
    hide Index;
    forall i | 0 <= i < |s.queue|
      ensures s.queue[i].uid == s.sends.flights[f].uid <==> s.sends.Filed(f) && s.queue[i].id == s.sends.flights[f].id
    {
      IndexHas(s.queue, i);
    }
  }
}
