/** One delivery channel's lane: sends go one at a time, a hung send is left
    behind, and nobody sends past it. Every call of `run` is its own thread; a step
    is what one thread does in one go or under the lane's lock. */
module Lane {
  import opened Basics

  /** `changed` is the channel the waiting calls watch; `closed` and `channels`
      are the channels closed and made so far. */
  datatype LaneState = LaneState(
    inFlight: bool, abandoned: bool, seqNo: nat, changed: Option<nat>, closed: set<nat>, channels: nat)

  const FREE := LaneState(false, false, 0, None, {}, 0)

  datatype Outcome = Busy | Granted(seqNo: nat) | Wait(channel: nat)

  /** What acquire does each time it holds the lock. */
  function TryAcquire(l: LaneState): (LaneState, Outcome) {
    if l.abandoned then (l, Busy)
    else if !l.inFlight then (l.(inFlight := true, seqNo := l.seqNo + 1), Granted(l.seqNo + 1))
    else if l.changed.None? then (l.(changed := Some(l.channels), channels := l.channels + 1), Wait(l.channels))
    else (l, Wait(l.changed.value))
  }

  function Signal(l: LaneState): LaneState {
    if l.changed.Some? then l.(closed := l.closed + {l.changed.value}, changed := None) else l
  }

  function Release(l: LaneState): LaneState { Signal(l.(inFlight := false, abandoned := false)) }

  function Abandon(l: LaneState, seqNo: nat): LaneState {
    if l.inFlight && l.seqNo == seqNo then Signal(l.(abandoned := true)) else l
  }

  // ---------------------------------------------------------------- the object

  class DeliveryLane {
    var inFlight: bool
    var abandoned: bool
    var seqNo: nat
    var changed: Option<nat>
    ghost var closed: set<nat>
    var channels: nat

    constructor ()
      ensures Now() == FREE
    {
      inFlight, abandoned, seqNo, changed, closed, channels := false, false, 0, None, {}, 0;
    }

    ghost function Now(): LaneState
      reads this
    {
      LaneState(inFlight, abandoned, seqNo, changed, closed, channels)
    }

    method Acquire() returns (o: Outcome)
      modifies this
      ensures (Now(), o) == TryAcquire(old(Now()))
    {
      if abandoned { return Busy; }
      if !inFlight {
        inFlight := true;
        seqNo := seqNo + 1;
        return Granted(seqNo);
      }
      if changed.None? {
        changed := Some(channels);
        channels := channels + 1;
      }
      o := Wait(changed.value);
    }

    method Wake()
      modifies this
      ensures Now() == Signal(old(Now()))
    {
      if changed.Some? {
        closed := closed + {changed.value};
        changed := None;
      }
    }

    method Free()
      modifies this
      ensures Now() == Release(old(Now()))
    {
      inFlight, abandoned := false, false;
      Wake();
    }

    method Leave(seqNo: nat)
      modifies this
      ensures Now() == Abandon(old(Now()), seqNo)
    {
      if inFlight && this.seqNo == seqNo {
        abandoned := true;
        Wake();
      }
    }
  }

  // ---------------------------------------------------------------- threads

  /** Where the caller of `run` stands. */
  datatype Caller =
    | Called | Ready | Waiting(channel: nat) | Holding | Leaving | Refused | Returned | Abandoned

  /** The send a granted call runs beside its caller: `Sent` once the sender
      returned, `Freed` once the lane was released. */
  datatype Send = NoSend | Sending(seqNo: nat) | Sent(seqNo: nat) | Freed(seqNo: nat)

  datatype Thread = Thread(caller: Caller, send: Send)
  {
    predicate Running() { send.Sending? || send.Sent? }
  }

  datatype World = World(lane: LaneState, threads: map<nat, Thread>)

  datatype Step =
    | Call(t: nat)
    | Enter(t: nat)
    | Try(t: nat)
    | WakeUp(t: nat)
    | GiveUp(t: nat)
    | SendEnds(t: nat)
    | FreeLane(t: nat)
    | Take(t: nat)
    | Stop(t: nat)
    | LeaveLane(t: nat)

  predicate Enabled(w: World, step: Step) {
    if step.Call? then step.t !in w.threads
    else
      step.t in w.threads &&
      var th := w.threads[step.t];
      match step
      case Call(_) => true
      case Enter(_) => th.caller.Called?
      case Try(_) => th.caller.Ready?
      case WakeUp(_) => th.caller.Waiting? && th.caller.channel in w.lane.closed
      case GiveUp(_) => th.caller.Called? || th.caller.Waiting?
      case SendEnds(_) => th.send.Sending?
      case FreeLane(_) => th.send.Sent?
      case Take(_) => th.caller.Holding? && th.send.Freed?
      case Stop(_) => th.caller.Holding?
      case LeaveLane(_) => th.caller.Leaving? && !th.send.NoSend?
  }

  function Put(w: World, t: nat, th: Thread): World { w.(threads := w.threads[t := th]) }

  function Tried(w: World, t: nat): World
    requires t in w.threads
  {
    var (l, o) := TryAcquire(w.lane);
    var v := w.(lane := l);
    match o
    case Busy => Put(v, t, w.threads[t].(caller := Refused))
    case Granted(n) => Put(v, t, Thread(Holding, Sending(n)))
    case Wait(c) => Put(v, t, w.threads[t].(caller := Waiting(c)))
  }

  function Next(w: World, step: Step): World
    requires Enabled(w, step)
  {
    if step.Call? then Put(w, step.t, Thread(Called, NoSend))
    else
      var t, th := step.t, w.threads[step.t];
      match step
      case Call(_) => w
      case Enter(_) => Put(w, t, th.(caller := Ready))
      case Try(_) => Tried(w, t)
      case WakeUp(_) => Put(w, t, th.(caller := Ready))
      case GiveUp(_) => Put(w, t, th.(caller := Refused))
      case SendEnds(_) => Put(w, t, th.(send := Sent(th.send.seqNo)))
      case FreeLane(_) => Put(w.(lane := Release(w.lane)), t, th.(send := Freed(th.send.seqNo)))
      case Take(_) => Put(w, t, th.(caller := Returned))
      case Stop(_) => Put(w, t, th.(caller := Leaving))
      case LeaveLane(_) => Put(w.(lane := Abandon(w.lane, th.send.seqNo)), t, th.(caller := Abandoned))
  }

  ghost predicate Run(ws: seq<World>, steps: seq<Step>) {
    && |ws| == |steps| + 1
    && ws[0] == World(FREE, map[])
    && forall i :: 0 <= i < |steps| ==> Enabled(ws[i], steps[i]) && ws[i + 1] == Next(ws[i], steps[i])
  }

  // ---------------------------------------------------------------- invariants

  /** The running send is the lane's current one, there is one exactly while the
      lane is taken, and an abandoned lane is its caller's own doing. */
  ghost predicate HolderOK(l: LaneState, th: Thread) {
    && (!th.send.NoSend? ==> th.send.seqNo <= l.seqNo)
    && (th.Running() ==> l.inFlight && th.send.seqNo == l.seqNo)
    && (th.Running() ==> (l.abandoned <==> th.caller.Abandoned?))
    && (th.send.NoSend? <==> th.caller in {Called, Ready, Refused} || th.caller.Waiting?)
  }

  ghost predicate Runs(w: World, t: nat) { t in w.threads && w.threads[t].Running() }

  ghost predicate OwnNumbers(a: Send, b: Send) { !a.NoSend? && !b.NoSend? ==> a.seqNo != b.seqNo }

  ghost predicate SendsOK(w: World) {
    && (forall t :: t in w.threads ==> HolderOK(w.lane, w.threads[t]))
    && (forall t, u :: t in w.threads && u in w.threads && t != u ==> OwnNumbers(w.threads[t].send, w.threads[u].send))
    && (w.lane.inFlight ==> exists t :: Runs(w, t))
    && (w.lane.abandoned ==> w.lane.inFlight)
  }

  /** A call waits on a channel that is closed, or that the next change closes. */
  ghost predicate WaitOK(l: LaneState, th: Thread) {
    th.caller.Waiting? ==>
      th.caller.channel < l.channels && (th.caller.channel in l.closed || l.changed == Some(th.caller.channel))
  }

  ghost predicate WakesOK(w: World) {
    && (w.lane.changed.Some? ==>
          w.lane.inFlight && !w.lane.abandoned && w.lane.changed.value !in w.lane.closed
          && w.lane.changed.value < w.lane.channels)
    && (forall c :: c in w.lane.closed ==> c < w.lane.channels)
    && (forall t :: t in w.threads ==> WaitOK(w.lane, w.threads[t]))
  }

  lemma {:induction false} TryKeeps(w: World, t: nat)
    requires SendsOK(w) && WakesOK(w) && t in w.threads && w.threads[t].caller.Ready?
    ensures SendsOK(Tried(w, t)) && WakesOK(Tried(w, t))
  {
    var v := Tried(w, t);
    assert HolderOK(w.lane, w.threads[t]);
    forall u | u in v.threads ensures HolderOK(v.lane, v.threads[u]) && WaitOK(v.lane, v.threads[u]) {
      assert HolderOK(w.lane, w.threads[u]) && WaitOK(w.lane, w.threads[u]);
    }
    if w.lane.inFlight {
      var h :| Runs(w, h);
      assert Runs(v, h);
    } else {
      assert Runs(v, t);
    }
  }

  lemma {:induction false} FreeKeeps(w: World, t: nat, v: World)
    requires SendsOK(w) && WakesOK(w) && Enabled(w, FreeLane(t)) && v == Next(w, FreeLane(t))
    ensures SendsOK(v) && WakesOK(v)
  {
    forall u | u in v.threads ensures HolderOK(v.lane, v.threads[u]) && WaitOK(v.lane, v.threads[u]) {
      assert HolderOK(w.lane, w.threads[u]) && WaitOK(w.lane, w.threads[u]);
      assert HolderOK(w.lane, w.threads[t]);
    }
  }

  lemma {:induction false} LeaveKeeps(w: World, t: nat, v: World)
    requires SendsOK(w) && WakesOK(w) && Enabled(w, LeaveLane(t)) && v == Next(w, LeaveLane(t))
    ensures SendsOK(v) && WakesOK(v)
  {
    assert HolderOK(w.lane, w.threads[t]);
    if w.lane.inFlight {
      var h :| Runs(w, h);
      assert HolderOK(w.lane, w.threads[h]);
      assert Runs(v, h);
    }
    forall u | u in v.threads ensures HolderOK(v.lane, v.threads[u]) && WaitOK(v.lane, v.threads[u]) {
      assert HolderOK(w.lane, w.threads[u]) && WaitOK(w.lane, w.threads[u]);
    }
  }

  lemma {:induction false} StepKeeps(w: World, step: Step)
    requires SendsOK(w) && WakesOK(w) && Enabled(w, step)
    ensures SendsOK(Next(w, step)) && WakesOK(Next(w, step))
  {
    var t := step.t;
    if step.Try? {
      TryKeeps(w, t);
    } else if step.FreeLane? {
      FreeKeeps(w, t, Next(w, step));
    } else if step.LeaveLane? {
      LeaveKeeps(w, t, Next(w, step));
    } else {
      LocalKeeps(w, t, Next(w, step));
    }
  }

  /** A step that leaves the lane alone and moves one thread's own part. */
  lemma {:induction false} LocalKeeps(w: World, t: nat, v: World)
    requires SendsOK(w) && WakesOK(w) && v.lane == w.lane
    requires t in v.threads && v == Put(w, t, v.threads[t])
    requires WaitOK(v.lane, v.threads[t]) && HolderOK(v.lane, v.threads[t])
    requires t !in w.threads ==> v.threads[t].send.NoSend?
    requires t in w.threads ==> v.threads[t].Running() == w.threads[t].Running()
    requires t in w.threads ==> v.threads[t].send.NoSend? == w.threads[t].send.NoSend?
    requires t in w.threads && !w.threads[t].send.NoSend? ==> v.threads[t].send.seqNo == w.threads[t].send.seqNo
    ensures SendsOK(v) && WakesOK(v)
  {
    if w.lane.inFlight {
      var h :| Runs(w, h);
      assert Runs(v, h);
    }
  }

  lemma {:induction false} Reachable(ws: seq<World>, steps: seq<Step>, k: nat)
    requires Run(ws, steps) && k < |ws|
    ensures SendsOK(ws[k]) && WakesOK(ws[k])
  {
    if k > 0 {
      Reachable(ws, steps, k - 1);
      StepKeeps(ws[k - 1], steps[k - 1]);
    }
  }

  // ---------------------------------------------------------------- main results

  /** At most one send runs at a time, one whenever the lane is taken. */
  lemma {:induction false} OneSendAtATime(ws: seq<World>, steps: seq<Step>, k: nat)
    requires Run(ws, steps) && k < |ws|
    ensures forall t, u :: Runs(ws[k], t) && Runs(ws[k], u) ==> t == u
    ensures ws[k].lane.inFlight <==> exists t :: Runs(ws[k], t)
  {
    Reachable(ws, steps, k);
    var w := ws[k];
    forall t, u | Runs(w, t) && Runs(w, u) ensures t == u {
      assert HolderOK(w.lane, w.threads[t]) && HolderOK(w.lane, w.threads[u]);
    }
    forall t | Runs(w, t) ensures w.lane.inFlight { assert HolderOK(w.lane, w.threads[t]); }
  }

  /** A send starts only when none runs, so none while one is abandoned, and its
      number is new. */
  lemma {:induction false} StartsOnFreeLane(ws: seq<World>, steps: seq<Step>, k: nat, t: nat)
    requires Run(ws, steps) && k < |steps| && Runs(ws[k + 1], t) && !Runs(ws[k], t)
    ensures steps[k] == Try(t) && !ws[k].lane.abandoned && forall u :: !Runs(ws[k], u)
    ensures forall u :: u in ws[k].threads && !ws[k].threads[u].send.NoSend? ==>
              ws[k].threads[u].send.seqNo < ws[k + 1].threads[t].send.seqNo
  {
    Reachable(ws, steps, k);
    var w := ws[k];
    forall u | u in w.threads ensures HolderOK(w.lane, w.threads[u]) {}
    assert ws[k + 1] == Next(w, steps[k]);
  }

  /** The lane is marked abandoned only by the caller of the very send that still
      runs; a caller whose send has returned changes nothing, whoever has taken
      the lane since. */
  lemma {:induction false} AbandonMarksItsOwn(ws: seq<World>, steps: seq<Step>, k: nat, t: nat)
    requires Run(ws, steps) && k < |steps| && steps[k] == LeaveLane(t)
    ensures if Runs(ws[k], t) then ws[k + 1].lane.abandoned && Runs(ws[k + 1], t)
            else ws[k + 1].lane == ws[k].lane
  {
    Reachable(ws, steps, k);
    var w := ws[k];
    assert HolderOK(w.lane, w.threads[t]);
    if w.lane.inFlight {
      var h :| Runs(w, h);
      assert HolderOK(w.lane, w.threads[h]);
    }
  }

  /** In every state an abandoned lane holds a running send whose own caller left
      it. */
  lemma {:induction false} AbandonedIsHung(ws: seq<World>, steps: seq<Step>, k: nat)
    requires Run(ws, steps) && k < |ws| && ws[k].lane.abandoned
    ensures exists t :: Runs(ws[k], t) && ws[k].threads[t].caller.Abandoned?
  {
    Reachable(ws, steps, k);
    var h :| Runs(ws[k], h);
    assert HolderOK(ws[k].lane, ws[k].threads[h]);
  }

  /** No wake-up is lost: a call still asleep waits for a running, not abandoned
      send, on the channel the lane closes at its next change. */
  lemma {:induction false} SleepersAreWatched(ws: seq<World>, steps: seq<Step>, k: nat, t: nat)
    requires Run(ws, steps) && k < |ws| && t in ws[k].threads && ws[k].threads[t].caller.Waiting?
    requires ws[k].threads[t].caller.channel !in ws[k].lane.closed
    ensures ws[k].lane.inFlight && !ws[k].lane.abandoned && ws[k].lane.changed == Some(ws[k].threads[t].caller.channel)
  {
    Reachable(ws, steps, k);
    assert WaitOK(ws[k].lane, ws[k].threads[t]);
  }

  /** What a list of steps does, when each is enabled in its turn. */
  ghost predicate Leads(w: World, steps: seq<Step>, v: World)
    decreases |steps|
  {
    if steps == [] then v == w else Enabled(w, steps[0]) && Leads(Next(w, steps[0]), steps[1..], v)
  }

  lemma {:induction false} WakeLeads(w: World, t: nat)
    requires Enabled(w, WakeUp(t))
    ensures Leads(w, [WakeUp(t)], Next(w, WakeUp(t))) && Next(w, WakeUp(t)).threads[t].caller.Ready?
  {
    var v := Next(w, WakeUp(t));
    assert Leads(v, [WakeUp(t)][1..], v);
  }

  lemma {:induction false} PrependLeads(w: World, step: Step, steps: seq<Step>, v: World)
    requires Enabled(w, step) && Leads(Next(w, step), steps, v)
    ensures Leads(w, [step] + steps, v)
  {
    assert ([step] + steps)[1..] == steps;
  }

  /** Freeing the lane wakes the sleeper. */
  lemma {:induction false} FreeWakes(w: World, t: nat, h: nat)
    requires SendsOK(w) && WakesOK(w) && h in w.threads && w.threads[h].send.Sent?
    requires t in w.threads && w.threads[t].caller.Waiting?
    ensures exists v :: Leads(w, [FreeLane(h), WakeUp(t)], v) && t in v.threads && v.threads[t].caller.Ready?
  {
    assert WaitOK(w.lane, w.threads[t]) && HolderOK(w.lane, w.threads[h]) && HolderOK(w.lane, w.threads[t]);
    var w1 := Next(w, FreeLane(h));
    WakeLeads(w1, t);
    PrependLeads(w, FreeLane(h), [WakeUp(t)], Next(w1, WakeUp(t)));
    assert [FreeLane(h)] + [WakeUp(t)] == [FreeLane(h), WakeUp(t)];
  }

  /** Whether t gets to try again within three steps of others and its own. */
  ghost predicate WakesBy(w: World, t: nat, steps: seq<Step>) {
    |steps| <= 3 && exists v :: Leads(w, steps, v) && t in v.threads && v.threads[t].caller.Ready?
  }

  /** Nobody waits forever by the lane's fault: once the running send returns, its
      release alone lets the waiting call try again. */
  lemma {:induction false} WaitersGetTheirTurn(ws: seq<World>, steps: seq<Step>, k: nat, t: nat)
    requires Run(ws, steps) && k < |ws| && t in ws[k].threads && ws[k].threads[t].caller.Waiting?
    ensures exists more :: WakesBy(ws[k], t, more)
  {
    Reachable(ws, steps, k);
    var w := ws[k];
    if w.threads[t].caller.channel in w.lane.closed {
      WakeLeads(w, t);
      assert WakesBy(w, t, [WakeUp(t)]);
    } else {
      assert WaitOK(w.lane, w.threads[t]) && HolderOK(w.lane, w.threads[t]);
      var h :| Runs(w, h);
      if w.threads[h].send.Sent? {
        FreeWakes(w, t, h);
        assert WakesBy(w, t, [FreeLane(h), WakeUp(t)]);
      } else {
        StepKeeps(w, SendEnds(h));
        var w1 := Next(w, SendEnds(h));
        FreeWakes(w1, t, h);
        var v :| Leads(w1, [FreeLane(h), WakeUp(t)], v) && t in v.threads && v.threads[t].caller.Ready?;
        PrependLeads(w, SendEnds(h), [FreeLane(h), WakeUp(t)], v);
        assert WakesBy(w, t, [SendEnds(h)] + [FreeLane(h), WakeUp(t)]);
      }
    }
  }
}
