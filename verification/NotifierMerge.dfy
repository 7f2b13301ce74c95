/** Folding a late-loaded queue into the one in memory: IDs stay in order, marks
    follow their messages, and no message in memory changes its verdict. */
module NotifierMerge {
  import opened NotifierModel
  import opened NotifierRuns

  /** A moved mark separates the renumbered messages as the old mark separated
      them. */
  lemma {:induction false} MovedMarkSeparates(q: seq<Message>, top: int, nextID: int, mark: int, i: nat)
    requires Ascending(q) && i < |q| && nextID > top + |q|
    ensures q[i].id < mark <==> top + 1 + i < MovedMark(q, top, nextID, mark)
  {
    var n := Before(q, mark);
    if n < i { assert q[n].id < q[i].id; }
  }

  /** How many messages the trim of a merge drops, oldest first. */
  function Cut(s: State, stored: seq<Message>): nat {
    if |stored| + |s.queue| > MAX_QUEUE then |stored| + |s.queue| - MAX_QUEUE else 0
  }

  lemma {:induction false} MergedLength(s: State, stored: seq<Message>)
    ensures |Merge(s, stored).queue| == |stored| + |s.queue| - Cut(s, stored)
    ensures Merge(s, stored).resolvedBefore.Keys == s.resolvedBefore.Keys && Merge(s, stored).nextID >= s.nextID
  {
    hide RenumberSends, MovedMark;
  }

  lemma {:induction false} MergedLayout(s: State, stored: seq<Message>, j: nat)
    requires FromStore(stored) && j < |Merge(s, stored).queue|
    ensures |Merge(s, stored).queue| == |stored| + |s.queue| - Cut(s, stored)
    ensures var at := Cut(s, stored) + j;
            Merge(s, stored).queue[j] ==
            if at < |stored| then stored[at].(uid := s.sends.nextUid + at)
            else s.queue[at - |stored|].(id := Top(stored) + 1 + (at - |stored|))
  {
    hide RenumberSends, MovedMark, Ascending;
    var m := MergedQueue(s, stored);
    assert Merge(s, stored).queue == Trimmed(m) && |m| == |stored| + |s.queue|;
    assert Merge(s, stored).queue[j] == m[Cut(s, stored) + j];
  }

  /** Every stored message lies before every mark that existed: its PROBLEM was
      resolved by the RESOLVED seen in memory. */
  lemma {:induction false} StoredLieBeforeMarks(s: State, stored: seq<Message>, i: nat, key: string)
    requires FromStore(stored) && i < |stored| && key in s.resolvedBefore
    ensures key in Merge(s, stored).resolvedBefore && stored[i].id < Merge(s, stored).resolvedBefore[key]
  {
  }

  /** The queue of a merge in any reachable state: what survives the trim is the
      end of the stored rows followed by the in-memory messages, in strictly
      ascending IDs below the next one, and every stored row lies before every
      mark. */
  lemma {:induction false} MergeOrders(
    opts: Options, states: seq<State>, steps: seq<Step>, k: nat, stored: seq<Message>)
    requires Run(opts, states, steps) && k < |states| && FromStore(stored)
    ensures var s, t := states[k], Merge(states[k], stored);
            && Ascending(t.queue) && t.nextID >= s.nextID
            && (forall j :: 0 <= j < |t.queue| ==> 0 < t.queue[j].id < t.nextID)
            && |t.queue| == |stored| + |s.queue| - Cut(s, stored)
            && (forall j :: 0 <= j < |t.queue| && Cut(s, stored) + j < |stored| ==>
                  t.queue[j] == stored[Cut(s, stored) + j].(uid := t.queue[j].uid))
            && (forall j :: 0 <= j < |t.queue| && Cut(s, stored) + j >= |stored| ==>
                  t.queue[j] == s.queue[Cut(s, stored) + j - |stored|].(id := t.queue[j].id))
            && (forall i, key :: 0 <= i < |stored| && key in s.resolvedBefore ==>
                  key in t.resolvedBefore && stored[i].id < t.resolvedBefore[key])
  {
    hide SendsOK, Merge;
    Reachable(opts, states, steps, k);
    MergedLength(states[k], stored);
    MergeKeeps(states[k], stored);
    var t := Merge(states[k], stored);
    forall j | 0 <= j < |t.queue|
      ensures var at := Cut(states[k], stored) + j;
              if at < |stored| then t.queue[j] == stored[at].(uid := t.queue[j].uid)
              else t.queue[j] == states[k].queue[at - |stored|].(id := t.queue[j].id)
    {
      MergedLayout(states[k], stored, j);
    }
    forall i, key | 0 <= i < |stored| && key in states[k].resolvedBefore
      ensures key in t.resolvedBefore && stored[i].id < t.resolvedBefore[key]
    {
      StoredLieBeforeMarks(states[k], stored, i, key);
    }
  }

  lemma {:induction false} AscendingOf(s: State)
    requires Inv(s)
    ensures Ascending(s.queue) && MarksOK(s.sends, s.nextID)
  {
  }

  /** In-flight marks follow their messages: message i is in flight after the
      merge, under its new ID, exactly when it was before, and by the same send. */
  lemma {:induction false} MergeMovesFlights(
    opts: Options, states: seq<State>, steps: seq<Step>, k: nat, stored: seq<Message>, i: nat)
    requires Run(opts, states, steps) && k < |states| && FromStore(stored) && i < |states[k].queue|
    ensures var d, e := states[k].sends, Merge(states[k], stored).sends;
            var from, to := states[k].queue[i].id, Top(stored) + 1 + i;
            && (to in e.inflight <==> from in d.inflight)
            && (from in d.inflight ==> e.inflight[to] == d.inflight[from]
                                       && d.inflight[from] in d.flights
                                       && e.flights[e.inflight[to]] == d.flights[d.inflight[from]].(id := to))
  {
    hide QueueOK, MessagesOK, DeliveredOK, FlightsOK, FiledOK, MarksOK, Merge, Run, RenumberSends;
    Reachable(opts, states, steps, k);
    var s := states[k];
    AscendingOf(s);
    MergeSends(s, stored);
    FlightMoves(s.queue, s.nextID, s.sends, Top(stored), i);
  }

  lemma {:induction false} MergeSends(s: State, stored: seq<Message>)
    ensures Merge(s, stored).sends ==
            RenumberSends(s.sends, s.queue, Top(stored)).(nextUid := s.sends.nextUid + |stored|)
  {
    hide MovedMark, RenumberMarks, RenumberFlight;
  }

  lemma {:induction false} FlightMoves(q: seq<Message>, nextID: int, d: Sends, top: int, i: nat)
    requires Ascending(q) && MarksOK(d, nextID) && i < |q|
    ensures var e := RenumberSends(d, q, top);
            var from, to := q[i].id, top + 1 + i;
            && (to in e.inflight <==> from in d.inflight)
            && (from in d.inflight ==> e.inflight[to] == d.inflight[from]
                                       && d.inflight[from] in d.flights
                                       && e.flights[e.inflight[to]] == d.flights[d.inflight[from]].(id := to))
  {
    hide HasID, Before, RenumberMarks;
    RenumberedMark(d.inflight, q, top, top + 1 + i);
    if q[i].id in d.inflight { RenumberedFlight(q, nextID, d, top, i); }
  }

  lemma {:induction false} StaleKept(s: State, stored: seq<Message>, i: nat)
    requires Ascending(s.queue) && FromStore(stored) && i < |s.queue|
    ensures Stale(Merge(s, stored), s.queue[i].(id := Top(stored) + 1 + i)) <==> Stale(s, s.queue[i])
  {
    var m := s.queue[i];
    if m.key in s.resolvedBefore {
      MovedMarkSeparates(s.queue, Top(stored), Merge(s, stored).nextID, s.resolvedBefore[m.key], i);
    }
  }

  /** No in-memory message that survives the merge changes its verdict: it is a
      stale SMS PROBLEM, or due for the SMS fallback, exactly as before. */
  lemma {:induction false} MergeKeepsVerdicts(
    opts: Options, states: seq<State>, steps: seq<Step>, k: nat, stored: seq<Message>, j: nat)
    requires Run(opts, states, steps) && k < |states| && FromStore(stored)
    requires j < |Merge(states[k], stored).queue| && Cut(states[k], stored) + j >= |stored|
    ensures |Merge(states[k], stored).queue| == |stored| + |states[k].queue| - Cut(states[k], stored)
    ensures var s, t := states[k], Merge(states[k], stored);
            var i := Cut(s, stored) + j - |stored|;
            && (Stale(t, t.queue[j]) <==> Stale(s, s.queue[i]))
            && (Due(t, j) <==> Due(s, i))
  {
    hide SendsOK, RenumberSends, MovedMark;
    Reachable(opts, states, steps, k);
    var s, t := states[k], Merge(states[k], stored);
    MergedLayout(s, stored, j);
    var i := Cut(s, stored) + j - |stored|;
    StaleKept(s, stored, i);
    var m := s.queue[i];
    if m.key in s.resolvedBefore {
      MovedMarkSeparates(s.queue, Top(stored), t.nextID, s.resolvedBefore[m.key], i);
    }
    LaterKept(s, stored, i, j, m.key);
  }

  lemma {:induction false} LaterKept(s: State, stored: seq<Message>, i: nat, j: nat, key: string)
    requires FromStore(stored) && i < |s.queue| && j < |Merge(s, stored).queue|
    requires i == Cut(s, stored) + j - |stored|
    ensures (forall b :: j < b < |Merge(s, stored).queue| ==> !Later(Merge(s, stored).queue[b], key)) <==>
            (forall a :: i < a < |s.queue| ==> !Later(s.queue[a], key))
  {
    var t := Merge(s, stored);
    var d := i - j;
    MergedLayout(s, stored, j);
    forall b | j < b < |t.queue| ensures Later(t.queue[b], key) <==> Later(s.queue[b + d], key) {
      MergedLayout(s, stored, b);
    }
    forall a | i < a < |s.queue| ensures Later(s.queue[a], key) <==> Later(t.queue[a - d], key) {
      MergedLayout(s, stored, a - d);
    }
  }
}
