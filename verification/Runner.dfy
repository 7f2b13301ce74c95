/** What becomes of a PROBLEM: the notifier's queue, the runner that takes what the
    queue drops, the alert engine and the undelivered list together. A step of the
    notifier and what the runner does with the messages it drops are one step. */
module Runner {
  import opened Basics
  import N = NotifierModel
  import NR = NotifierRuns
  import opened NotifierFates
  import Engine
  import ER = EngineRuns
  import Undelivered
  import UR = UndeliveredRuns

  /** What does not change: the channels, the checks' plans, how a message is listed
      and how an item is written. */
  datatype Setting = Setting(
    opts: N.Options, plans: ER.Plans, item: N.Message -> Undelivered.Item, line: Undelivered.Writer)

  /** The dropped PROBLEMs that reopened their condition: all of them, those whose
      condition waits for its next reading, those raised again, and those whose
      condition ended before. */
  datatype Reopened = Reopened(
    all: seq<N.Message>, waiting: seq<N.Message>, raised: seq<N.Message>, unheard: seq<N.Message>)

  /** `listed` (the dropped PROBLEMs that were listed) and `reopened` are history. */
  datatype World = World(
    notifier: N.State, engine: ER.World, undelivered: UR.World, listed: seq<N.Message>, reopened: Reopened)

  const START := World(N.Initial(), ER.START, UR.START, [], Reopened([], [], [], []))

  datatype Step =
    | Notify(at: Engine.Time, queueStep: N.Step)
    | Judge(engineStep: ER.Step)
    | Show(listStep: UR.Step)

  /** Drops come from the queue, and listings from drops, only. */
  ghost predicate Enabled(st: Setting, w: World, step: Step) {
    match step
    case Notify(_, s) => N.Enabled(w.notifier, s)
    case Judge(s) => !s.DropOne?
    case Show(s) => !s.ListOne? && UR.Enabled(st.line, w.undelivered, s)
  }

  function Dropped(m: N.Message): Engine.Message {
    Engine.Message(m.kind == N.Problem, m.key, if m.createdAt < 0 then 0 else m.createdAt)
  }

  /** OnDrop: the engine reopens the condition, or the PROBLEM is listed. */
  ghost function HandOne(st: Setting, at: Engine.Time, w: World, m: N.Message): World {
    var e := ER.Next(st.plans, w.engine, ER.DropOne(at, Dropped(m)));
    var v := w.(engine := e);
    if m.kind != N.Problem then v
    else if e.listed == w.engine.listed then
      v.(reopened := w.reopened.(all := w.reopened.all + [m], waiting := w.reopened.waiting + [m]))
    else v.(undelivered := UR.Next(st.line, w.undelivered, UR.ListOne(st.item(m))), listed := w.listed + [m])
  }

  ghost function Hand(st: Setting, at: Engine.Time, w: World, ms: seq<N.Message>): World {
    if ms == [] then w else HandOne(st, at, Hand(st, at, w, ms[..|ms| - 1]), ms[|ms| - 1])
  }

  /** What a step of the notifier handed to OnDrop. */
  function Since(before: seq<N.Message>, after: seq<N.Message>): seq<N.Message> {
    if |before| <= |after| then after[|before|..] else []
  }

  datatype Status = Waiting | Raised | Unheard

  function StatusOf(conds: Engine.Conditions, m: N.Message): Status {
    if m.key !in conds then Unheard else if conds[m.key].open then Raised else Waiting
  }

  function Where(ms: seq<N.Message>, conds: Engine.Conditions, status: Status): seq<N.Message> {
    if ms == [] then []
    else
      var n := |ms| - 1;
      Where(ms[..n], conds, status) + if StatusOf(conds, ms[n]) == status then [ms[n]] else []
  }

  /** A waiting condition that is open was raised; one no longer tracked has ended. */
  function Sorted(r: Reopened, conds: Engine.Conditions): Reopened {
    r.(waiting := Where(r.waiting, conds, Waiting), raised := r.raised + Where(r.waiting, conds, Raised),
       unheard := r.unheard + Where(r.waiting, conds, Unheard))
  }

  ghost function Next(st: Setting, w: World, step: Step): World
    requires Enabled(st, w, step)
  {
    match step
    case Notify(at, s) =>
      var n := N.Next(w.notifier, st.opts, s);
      Hand(st, at, w.(notifier := n), Since(w.notifier.fates.handed, n.fates.handed))
    case Judge(s) =>
      var e := ER.Next(st.plans, w.engine, s);
      w.(engine := e, reopened := Sorted(w.reopened, e.conds))
    case Show(s) => w.(undelivered := UR.Next(st.line, w.undelivered, s))
  }

  ghost predicate Run(st: Setting, ws: seq<World>, steps: seq<Step>) {
    && |ws| == |steps| + 1
    && ws[0] == START
    && forall i :: 0 <= i < |steps| ==> Enabled(st, ws[i], steps[i]) && ws[i + 1] == Next(st, ws[i], steps[i])
  }

  // ---------------------------------------------------------------- invariants

  ghost predicate NotifierOK(n: N.State) { NR.Inv(n) && FatesInv(n) && SentOK(n) && StaleOK(n) }

  /** The PROBLEMs of a list, as counted, are those listed and those reopened. */
  ghost predicate SplitAt(handed: seq<N.Message>, listed: seq<N.Message>, reopened: seq<N.Message>, x: N.Message) {
    x.kind == N.Problem ==> Count(handed, x) == Count(listed, x) + Count(reopened, x)
  }

  ghost predicate Split(handed: seq<N.Message>, listed: seq<N.Message>, reopened: seq<N.Message>) {
    forall x :: SplitAt(handed, listed, reopened, x)
  }

  ghost function Items(st: Setting, ms: seq<N.Message>): multiset<Undelivered.Item> {
    if ms == [] then multiset{} else Items(st, ms[..|ms| - 1]) + multiset{st.item(ms[|ms| - 1])}
  }

  function Drops(ms: seq<N.Message>): seq<Engine.Message> {
    seq(|ms|, i requires 0 <= i < |ms| => Dropped(ms[i]))
  }

  /** What was listed is on the undelivered list's books, what reopened on the
      engine's. */
  ghost predicate BooksOK(st: Setting, w: World) {
    && Items(st, w.listed) <= w.undelivered.listed
    && w.engine.reopened == Drops(w.reopened.all)
    && UR.CountsOK(w.undelivered) && UR.HeldOK(w.undelivered.list, w.undelivered.holder)
  }

  /** Every PROBLEM that reopened its condition has one status, and those that wait
      have a closed condition. */
  ghost predicate SortedAt(r: Reopened, x: N.Message) {
    Count(r.all, x) == Count(r.waiting, x) + Count(r.raised, x) + Count(r.unheard, x)
  }

  ghost predicate ReopenedOK(r: Reopened, conds: Engine.Conditions) {
    && (forall x :: SortedAt(r, x))
    && (forall m :: m in r.waiting ==> StatusOf(conds, m) == Waiting)
  }

  ghost predicate Inv(st: Setting, w: World) {
    && NotifierOK(w.notifier) && Split(w.notifier.fates.handed, w.listed, w.reopened.all) && BooksOK(st, w)
    && ReopenedOK(w.reopened, w.engine.conds)
  }

  lemma {:induction false} WhereIs(ms: seq<N.Message>, conds: Engine.Conditions, status: Status, m: N.Message)
    ensures m in Where(ms, conds, status) <==> m in ms && StatusOf(conds, m) == status
  {
    hide StatusOf;
    if ms != [] {
      var n := |ms| - 1;
      WhereIs(ms[..n], conds, status, m);
      assert ms == ms[..n] + [ms[n]];
    }
  }

  lemma {:induction false} WhereCounts(ms: seq<N.Message>, conds: Engine.Conditions, x: N.Message)
    ensures Count(ms, x) ==
            Count(Where(ms, conds, Waiting), x) + Count(Where(ms, conds, Raised), x) +
            Count(Where(ms, conds, Unheard), x)
  {
    hide StatusOf, Count;
    if ms == [] {
      CountNone([], x);
    } else {
      var n := |ms| - 1;
      WhereCounts(ms[..n], conds, x);
      assert ms == ms[..n] + [ms[n]];
      CountJoin(ms[..n], [ms[n]], x);
      CountNone([], x);
      forall status ensures Count(Where(ms, conds, status), x) ==
        Count(Where(ms[..n], conds, status), x) + if StatusOf(conds, ms[n]) == status then Count([ms[n]], x) else 0
      {
        CountJoin(Where(ms[..n], conds, status), if StatusOf(conds, ms[n]) == status then [ms[n]] else [], x);
      }
    }
  }

  lemma {:induction false} SortedOK(r: Reopened, before: Engine.Conditions, conds: Engine.Conditions)
    requires ReopenedOK(r, before)
    ensures ReopenedOK(Sorted(r, conds), conds)
  {
    hide Count, Where, StatusOf;
    var t := Sorted(r, conds);
    forall x ensures SortedAt(t, x) {
      assert SortedAt(r, x);
      WhereCounts(r.waiting, conds, x);
      CountJoin(r.raised, Where(r.waiting, conds, Raised), x);
      CountJoin(r.unheard, Where(r.waiting, conds, Unheard), x);
    }
    forall m | m in t.waiting ensures StatusOf(conds, m) == Waiting { WhereIs(r.waiting, conds, Waiting, m); }
  }

  /** What OnDrop does with one message: a PROBLEM of its key's current streak, still
      open, reopens the condition and waits; any other PROBLEM is listed; a RESOLVED
      or an event goes. */
  lemma {:induction false} HandedExactly(st: Setting, at: Engine.Time, w: World, m: N.Message)
    ensures var v := HandOne(st, at, w, m);
            var created := if m.createdAt < 0 then 0 else m.createdAt;
            if m.kind != N.Problem then v.engine.conds == w.engine.conds && v == w.(engine := v.engine)
            else if && m.key in w.engine.conds && w.engine.conds[m.key].open
                    && created / Engine.SECOND >= w.engine.conds[m.key].streakStart / Engine.SECOND then
              && v.listed == w.listed && v.undelivered == w.undelivered
              && v.reopened.waiting == w.reopened.waiting + [m] && v.reopened.all == w.reopened.all + [m]
              && m.key in v.engine.conds && !v.engine.conds[m.key].open
            else
              && v.listed == w.listed + [m] && v.reopened == w.reopened && v.engine.conds == w.engine.conds
              && v.undelivered.listed == w.undelivered.listed + multiset{st.item(m)}
  {
    hide UR.Next;
    var d := Dropped(m);
    if m.kind == N.Problem {
      ER.Reopens(st.plans, w.engine, ER.DropOne(at, d));
    } else {
      OtherDrop(st.plans, w.engine, at, d);
    }
    ListsOne(st.line, w.undelivered, st.item(m));
    hide ER.Next;
  }

  lemma {:induction false} HandOneSorted(st: Setting, at: Engine.Time, w: World, m: N.Message)
    requires ReopenedOK(w.reopened, w.engine.conds)
    ensures var v := HandOne(st, at, w, m); ReopenedOK(v.reopened, v.engine.conds)
    ensures forall x :: x in w.reopened.waiting ==> x in HandOne(st, at, w, m).reopened.waiting
  {
    hide UR.Next;
    var d := Dropped(m);
    if m.kind == N.Problem {
      ER.Reopens(st.plans, w.engine, ER.DropOne(at, d));
    } else {
      OtherDrop(st.plans, w.engine, at, d);
    }
    hide ER.Next, Count;
    var v := HandOne(st, at, w, m);
    forall x ensures SortedAt(v.reopened, x) {
      assert SortedAt(w.reopened, x);
      CountJoin(w.reopened.all, [m], x);
      CountJoin(w.reopened.waiting, [m], x);
    }
  }

  lemma {:induction false} HandSorted(st: Setting, at: Engine.Time, w: World, ms: seq<N.Message>)
    requires ReopenedOK(w.reopened, w.engine.conds)
    ensures var v := Hand(st, at, w, ms); ReopenedOK(v.reopened, v.engine.conds)
    ensures forall x :: x in w.reopened.waiting ==> x in Hand(st, at, w, ms).reopened.waiting
  {
    hide ReopenedOK, HandOne;
    if ms != [] {
      HandSorted(st, at, w, ms[..|ms| - 1]);
      HandOneSorted(st, at, Hand(st, at, w, ms[..|ms| - 1]), ms[|ms| - 1]);
    }
  }

  lemma {:induction false} NotifierSteps(n: N.State, opts: N.Options, step: N.Step)
    requires NotifierOK(n) && N.Enabled(n, step)
    ensures NotifierOK(N.Next(n, opts, step)) && n.fates.handed <= N.Next(n, opts, step).fates.handed
  {
    hide NR.Inv, FatesInv, StaleOK, N.Next, N.Enabled;
    NR.NextKeeps(n, opts, step);
    NextFates(n, opts, step);
    NextDelivers(n, opts, step);
    NextStale(n, opts, step);
  }

  lemma {:induction false} SplitSkips(handed: seq<N.Message>, w: World, v: World, m: N.Message)
    requires Split(handed, w.listed, w.reopened.all) && m.kind != N.Problem
    requires v.listed == w.listed && v.reopened.all == w.reopened.all
    ensures Split(handed + [m], v.listed, v.reopened.all)
  {
    forall x ensures SplitAt(handed + [m], v.listed, v.reopened.all, x) {
      assert SplitAt(handed, w.listed, w.reopened.all, x);
      CountJoin(handed, [m], x);
      assert [m][1..] == [];
    }
  }

  lemma {:induction false} SplitTakes(handed: seq<N.Message>, w: World, v: World, m: N.Message)
    requires Split(handed, w.listed, w.reopened.all)
    requires || (v.listed == w.listed + [m] && v.reopened.all == w.reopened.all)
             || (v.listed == w.listed && v.reopened.all == w.reopened.all + [m])
    ensures Split(handed + [m], v.listed, v.reopened.all)
  {
    hide Count;
    forall x ensures SplitAt(handed + [m], v.listed, v.reopened.all, x) {
      assert SplitAt(handed, w.listed, w.reopened.all, x);
      CountJoin(handed, [m], x);
      CountJoin(w.listed, [m], x);
      CountJoin(w.reopened.all, [m], x);
    }
  }

  lemma {:induction false} HandOneBooks(st: Setting, at: Engine.Time, w: World, m: N.Message)
    requires BooksOK(st, w)
    ensures BooksOK(st, HandOne(st, at, w, m))
    ensures HandOne(st, at, w, m).notifier == w.notifier
  {
    hide UR.CountsOK, UR.HeldOK, UR.Next;
    var d := Dropped(m);
    if m.kind == N.Problem {
      ER.Reopens(st.plans, w.engine, ER.DropOne(at, d));
    } else {
      OtherDrop(st.plans, w.engine, at, d);
    }
    UR.StepKeeps(st.line, w.undelivered, UR.ListOne(st.item(m)));
    ListsOne(st.line, w.undelivered, st.item(m));
    hide ER.Next;
    assert (w.listed + [m])[..|w.listed|] == w.listed;
    assert Drops(w.reopened.all + [m]) == Drops(w.reopened.all) + [d];
  }

  lemma {:induction false} OtherDrop(plans: ER.Plans, e: ER.World, at: Engine.Time, d: Engine.Message)
    requires !d.problem
    ensures ER.Next(plans, e, ER.DropOne(at, d)).reopened == e.reopened
    ensures ER.Next(plans, e, ER.DropOne(at, d)).conds == e.conds
  {
  }

  lemma {:induction false} ListsOne(line: Undelivered.Writer, u: UR.World, item: Undelivered.Item)
    ensures UR.Next(line, u, UR.ListOne(item)).listed == u.listed + multiset{item}
  {
  }

  lemma {:induction false} HandBooks(st: Setting, at: Engine.Time, w: World, handed: seq<N.Message>, ms: seq<N.Message>)
    requires BooksOK(st, w) && Split(handed, w.listed, w.reopened.all)
    ensures var v := Hand(st, at, w, ms);
            BooksOK(st, v) && Split(handed + ms, v.listed, v.reopened.all) && v.notifier == w.notifier
  {
    hide BooksOK, Split;
    if ms == [] {
      assert handed + ms == handed;
    } else {
      var n := |ms| - 1;
      HandBooks(st, at, w, handed, ms[..n]);
      var v := Hand(st, at, w, ms[..n]);
      HandOneBooks(st, at, v, ms[n]);
      assert handed + ms == (handed + ms[..n]) + [ms[n]];
      if ms[n].kind == N.Problem {
        SplitTakes(handed + ms[..n], v, HandOne(st, at, v, ms[n]), ms[n]);
      } else {
        SplitSkips(handed + ms[..n], v, HandOne(st, at, v, ms[n]), ms[n]);
      }
    }
  }

  lemma {:induction false} JudgeBooks(plans: ER.Plans, e: ER.World, step: ER.Step)
    requires !step.DropOne?
    ensures ER.Next(plans, e, step).reopened == e.reopened
  {
  }

  lemma {:induction false} ShowBooks(line: Undelivered.Writer, u: UR.World, step: UR.Step)
    requires UR.Enabled(line, u, step)
    ensures u.listed <= UR.Next(line, u, step).listed
  {
    hide Undelivered.Shows;
  }

  lemma {:induction false} StepKeeps(st: Setting, w: World, step: Step)
    requires Inv(st, w) && Enabled(st, w, step)
    ensures Inv(st, Next(st, w, step))
  {
    hide NotifierOK, N.Next, N.Enabled, ER.Next, UR.Next, UR.Enabled, UR.CountsOK, UR.HeldOK, Hand, ReopenedOK;
    match step
    case Notify(at, s) =>
      var n := N.Next(w.notifier, st.opts, s);
      NotifierSteps(w.notifier, st.opts, s);
      var ms := Since(w.notifier.fates.handed, n.fates.handed);
      assert n.fates.handed == w.notifier.fates.handed + ms;
      HandBooks(st, at, w.(notifier := n), w.notifier.fates.handed, ms);
      HandSorted(st, at, w.(notifier := n), ms);
    case Judge(s) =>
      JudgeBooks(st.plans, w.engine, s);
      SortedOK(w.reopened, w.engine.conds, ER.Next(st.plans, w.engine, s).conds);
    case Show(s) =>
      UR.StepKeeps(st.line, w.undelivered, s);
      ShowBooks(st.line, w.undelivered, s);
  }

  lemma {:induction false} Reachable(st: Setting, ws: seq<World>, steps: seq<Step>, k: nat)
    requires Run(st, ws, steps) && k < |ws|
    ensures Inv(st, ws[k])
  {
    hide Inv, Next, Enabled;
    if k == 0 {
      StartOK(st);
    } else {
      Reachable(st, ws, steps, k - 1);
      StepKeeps(st, ws[k - 1], steps[k - 1]);
    }
  }

  lemma {:induction false} StartOK(st: Setting)
    ensures Inv(st, START)
  {
    hide NotifierOK, UR.CountsOK, UR.HeldOK, Count;
    StartNotifier();
    StartList();
    forall x ensures SplitAt([], [], [], x) && SortedAt(START.reopened, x) { CountNone([], x); }
  }

  lemma {:induction false} StartNotifier()
    ensures NotifierOK(N.Initial())
  {
    hide FatesInv;
    StartFates();
  }

  lemma {:induction false} StartList()
    ensures UR.CountsOK(UR.START) && UR.HeldOK(UR.START.list, UR.START.holder)
  {
  }

  // ---------------------------------------------------------------- main results

  /** Every PROBLEM ever queued is, exactly once, queued still, sent on its channel,
      dropped as stale after its key resolved, listed as undelivered, or the reason
      its condition was reopened, and then waiting for the next reading, raised again
      or ended unheard. */
  lemma {:induction false} OneFateOfProblem(st: Setting, ws: seq<World>, steps: seq<Step>, k: nat, i: nat)
    requires Run(st, ws, steps) && k < |ws| && i < |ws[k].notifier.fates.ever|
    requires ws[k].notifier.fates.ever[i].kind == N.Problem
    ensures var (w, f, r) := (ws[k], ws[k].notifier.fates, ws[k].reopened);
            var x := Core(f.ever[i]);
            Count(w.notifier.queue, x) + Count(f.sent, x) + Count(f.stale, x) + Count(w.listed, x)
            + Count(r.waiting, x) + Count(r.raised, x) + Count(r.unheard, x) == 1
  {
    hide Next, Enabled, NR.Inv, SentOK, StaleOK, BooksOK, Count;
    Reachable(st, ws, steps, k);
    var f := ws[k].notifier.fates;
    CountOnce(f.ever, i);
    assert BalancedAt(f, ws[k].notifier.queue, Core(f.ever[i]));
    assert SplitAt(f.handed, ws[k].listed, ws[k].reopened.all, Core(f.ever[i]));
    assert SortedAt(ws[k].reopened, Core(f.ever[i]));
  }

  /** And each of these is what it says: what is sent was delivered, what is stale has
      its key resolved, what is listed was shown, is listed or is counted, what
      reopened is in the engine's history, and what waits has a closed condition. */
  lemma {:induction false} FatesAreReal(st: Setting, ws: seq<World>, steps: seq<Step>, k: nat)
    requires Run(st, ws, steps) && k < |ws|
    ensures var (w, n, u) := (ws[k], ws[k].notifier, ws[k].undelivered);
            && (forall m :: m in n.fates.sent ==> n.sends.delivered[m.uid] == 1)
            && (forall m :: m in n.fates.stale ==> m.key in n.resolvedBefore && n.sends.delivered[m.uid] == 0)
            && Items(st, w.listed) <= u.shown + multiset(u.list.items) + u.folds
            && |u.folds| + u.listedCount == u.shownCount + u.list.folded
            && w.engine.reopened == Drops(w.reopened.all)
            && (forall m :: m in w.reopened.waiting ==>
                  m.key in w.engine.conds && !w.engine.conds[m.key].open)
  {
    hide Next, Enabled, Items, NR.Index, Split, UR.HeldOK, Count;
    Reachable(st, ws, steps, k);
    DeliveredOnce(ws[k].notifier);
    forall m | m in ws[k].reopened.waiting ensures m.key in ws[k].engine.conds && !ws[k].engine.conds[m.key].open {
      assert StatusOf(ws[k].engine.conds, m) == Waiting;
    }
  }

  lemma {:induction false} DeliveredOnce(n: N.State)
    requires NotifierOK(n)
    ensures forall m :: m in n.fates.sent ==> n.sends.delivered[m.uid] == 1
    ensures forall m :: m in n.fates.stale ==> m.key in n.resolvedBefore && n.sends.delivered[m.uid] == 0
  {
    hide FatesInv, NR.Index;
  }

  // ---------------------------------------------------------------- a reopened PROBLEM

  /** The step judges the key: reads it Good or Bad, or forgets it. */
  predicate Judges(step: Step, key: string) { step.Judge? && ER.Touches(step.engineStep, key) }

  predicate ReadsBad(step: Step, key: string) { step.Judge? && ER.ReadsBad(step.engineStep, key) }

  /** Every condition loaded open had reached its threshold. */
  ghost predicate SoundLoads(st: Setting, steps: seq<Step>) {
    forall i :: 0 <= i < |steps| && steps[i].Judge? && steps[i].engineStep.Load? ==>
      forall j :: 0 <= j < |steps[i].engineStep.stored| ==> ER.RowOK(st.plans, steps[i].engineStep.stored[j])
  }

  /** The engine's open conditions, and those that wait, have reached their
      thresholds. */
  ghost predicate DueOK(st: Setting, w: World) {
    && ER.ReachedOK(st.plans, w.engine.conds)
    && forall m :: m in w.reopened.waiting ==> Due(st, w.engine.conds, m)
  }

  predicate Due(st: Setting, conds: Engine.Conditions, m: N.Message) {
    m.key in conds && conds[m.key].badFor >= st.plans(m.key).threshold
  }

  lemma {:induction false} HandOneDue(st: Setting, at: Engine.Time, w: World, m: N.Message)
    requires DueOK(st, w)
    ensures DueOK(st, HandOne(st, at, w, m))
  {
    var d := Dropped(m);
    var step := ER.DropOne(at, d);
    ER.NextReached(st.plans, w.engine, step);
    if d.problem { ER.Reopens(st.plans, w.engine, step); } else { OtherDrop(st.plans, w.engine, at, d); }
    var v := HandOne(st, at, w, m);
    hide ER.Next, UR.Next;
    forall x | x in v.reopened.waiting ensures Due(st, v.engine.conds, x) {
      if x in w.reopened.waiting { assert Due(st, w.engine.conds, x); }
    }
  }

  lemma {:induction false} HandDue(st: Setting, at: Engine.Time, w: World, ms: seq<N.Message>)
    requires DueOK(st, w)
    ensures DueOK(st, Hand(st, at, w, ms))
  {
    hide DueOK, HandOne;
    if ms != [] {
      HandDue(st, at, w, ms[..|ms| - 1]);
      HandOneDue(st, at, Hand(st, at, w, ms[..|ms| - 1]), ms[|ms| - 1]);
    }
  }

  lemma {:induction false} JudgeDue(st: Setting, w: World, step: Step)
    requires step.Judge? && Enabled(st, w, step) && ReopenedOK(w.reopened, w.engine.conds) && DueOK(st, w)
    requires ER.ReachedOK(st.plans, Next(st, w, step).engine.conds)
    ensures DueOK(st, Next(st, w, step))
  {
    hide ER.Next, ER.ReachedOK, Where, ER.Touches;
    var (v, s) := (Next(st, w, step), step.engineStep);
    forall m | m in v.reopened.waiting ensures Due(st, v.engine.conds, m) {
      WhereIs(w.reopened.waiting, v.engine.conds, Waiting, m);
      assert Due(st, w.engine.conds, m) && StatusOf(w.engine.conds, m) == Waiting;
      if ER.Touches(s, m.key) {
        Untouched(st.plans, w.engine, s, m.key);
      } else {
        ER.ClosedStays(st.plans, w.engine, s, m.key);
      }
    }
  }

  /** A condition that has reached its threshold does not wait through a judgement. */
  lemma {:induction false} Untouched(plans: ER.Plans, e: ER.World, step: ER.Step, key: string)
    requires key in e.conds && !e.conds[key].open && e.conds[key].badFor >= plans(key).threshold
    requires ER.Touches(step, key)
    ensures var conds := ER.Next(plans, e, step).conds; key !in conds || conds[key].open
  {
    hide ER.Next, ER.Gain;
    if ER.ReadsBad(step, key) { ER.RaisedExactly(plans, e, step, key); } else { ER.EndsUnheard(plans, e, step, key); }
  }

  lemma {:induction false} DueReachable(st: Setting, ws: seq<World>, steps: seq<Step>, k: nat)
    requires Run(st, ws, steps) && SoundLoads(st, steps) && k < |ws|
    ensures DueOK(st, ws[k])
  {
    hide ER.ReachedOK, ER.RowOK, ER.Next, N.Next, UR.Next, Hand, N.Enabled, UR.Enabled, Sorted, ReopenedOK, BooksOK,
         NotifierOK;
    if k == 0 {
      ER.NoneReached(st.plans);
    } else {
      DueReachable(st, ws, steps, k - 1);
      Reachable(st, ws, steps, k - 1);
      var (w, step) := (ws[k - 1], steps[k - 1]);
      assert ws[k] == Next(st, w, step);
      match step
      case Notify(at, s) =>
        var n := N.Next(w.notifier, st.opts, s);
        HandDue(st, at, w.(notifier := n), Since(w.notifier.fates.handed, n.fates.handed));
      case Judge(s) =>
        ER.NextReached(st.plans, w.engine, s);
        JudgeDue(st, w, step);
      case Show(_) =>
    }
  }

  /** A waiting PROBLEM waits until a step judges its key. */
  lemma {:induction false} WaitingStays(st: Setting, w: World, step: Step, m: N.Message)
    requires Enabled(st, w, step) && ReopenedOK(w.reopened, w.engine.conds)
    requires m in w.reopened.waiting && !Judges(step, m.key)
    ensures m in Next(st, w, step).reopened.waiting
  {
    hide N.Next, ER.Next, UR.Next, Hand, N.Enabled, UR.Enabled, Where, ER.Touches;
    assert StatusOf(w.engine.conds, m) == Waiting;
    match step
    case Notify(at, s) =>
      var n := N.Next(w.notifier, st.opts, s);
      HandSorted(st, at, w.(notifier := n), Since(w.notifier.fates.handed, n.fates.handed));
    case Judge(s) =>
      ER.ClosedStays(st.plans, w.engine, s, m.key);
      WhereIs(w.reopened.waiting, ER.Next(st.plans, w.engine, s).conds, Waiting, m);
    case Show(_) =>
  }

  /** A Bad reading of a waiting PROBLEM's key raises it again, if its condition has
      reached its threshold; any other judgement ends it unheard. */
  lemma {:induction false} WaitingEnds(st: Setting, w: World, step: Step, m: N.Message)
    requires Enabled(st, w, step) && ReopenedOK(w.reopened, w.engine.conds)
    requires m in w.reopened.waiting && Judges(step, m.key)
    ensures m.key in w.engine.conds
    ensures var (v, c) := (Next(st, w, step), w.engine.conds[m.key]);
            var p := st.plans(m.key);
            if !ReadsBad(step, m.key) then m in v.reopened.unheard
            else if c.badFor + ER.Gain(c, step.engineStep.at, p.interval) >= p.threshold then
              m in v.reopened.raised && v.engine.log == w.engine.log + [ER.Raised(m.key)]
            else m in v.reopened.waiting
  {
    hide ER.Next, Where, ER.Gain, ER.Touches, ER.ReadsBad;
    assert StatusOf(w.engine.conds, m) == Waiting;
    var (s, e) := (step.engineStep, ER.Next(st.plans, w.engine, step.engineStep));
    if ER.ReadsBad(s, m.key) {
      ER.RaisedExactly(st.plans, w.engine, s, m.key);
      BadIsTracked(st.plans, w.engine, s, m.key);
    } else {
      ER.EndsUnheard(st.plans, w.engine, s, m.key);
    }
    WhereIs(w.reopened.waiting, e.conds, Waiting, m);
    WhereIs(w.reopened.waiting, e.conds, Raised, m);
    WhereIs(w.reopened.waiting, e.conds, Unheard, m);
  }

  lemma {:induction false} BadIsTracked(plans: ER.Plans, e: ER.World, step: ER.Step, key: string)
    requires ER.ReadsBad(step, key)
    ensures key in ER.Next(plans, e, step).conds
  {
    hide Engine.Aged, ER.Note, ER.Counted;
  }

  /** A PROBLEM that reopened its condition and waits, until step k first judges its
      key: it is raised again exactly when that is a Bad reading, where every loaded
      condition had reached its threshold. Otherwise its condition ends without
      another word. */
  lemma {:induction false} ReopenedIsHeardExactly(
    st: Setting, ws: seq<World>, steps: seq<Step>, i: nat, k: nat, m: N.Message)
    requires Run(st, ws, steps) && SoundLoads(st, steps) && i <= k < |steps| && m in ws[i].reopened.waiting
    requires Judges(steps[k], m.key) && forall j :: i <= j < k ==> !Judges(steps[j], m.key)
    ensures if ReadsBad(steps[k], m.key) then
              m in ws[k + 1].reopened.raised && ws[k + 1].engine.log == ws[k].engine.log + [ER.Raised(m.key)]
            else m in ws[k + 1].reopened.unheard
  {
    hide Next, Enabled, Judges, ReadsBad, SoundLoads, BooksOK, NotifierOK, Split;
    WaitsTill(st, ws, steps, i, k, m);
    Reachable(st, ws, steps, k);
    DueReachable(st, ws, steps, k);
    WaitingEnds(st, ws[k], steps[k], m);
    assert Due(st, ws[k].engine.conds, m);
  }

  lemma {:induction false} WaitsTill(st: Setting, ws: seq<World>, steps: seq<Step>, i: nat, k: nat, m: N.Message)
    requires Run(st, ws, steps) && i <= k < |ws| && m in ws[i].reopened.waiting
    requires forall j :: i <= j < k ==> !Judges(steps[j], m.key)
    ensures m in ws[k].reopened.waiting
  {
    hide Next, Enabled, Judges, BooksOK, NotifierOK, Split, ReopenedOK;
    if i < k {
      WaitsTill(st, ws, steps, i, k - 1, m);
      Reachable(st, ws, steps, k - 1);
      WaitingStays(st, ws[k - 1], steps[k - 1], m);
    }
  }

  // ---------------------------------------------------------------- a PROBLEM nobody hears of

  function ReadingOf(verdict: Engine.Verdict): Engine.Reading { Engine.Reading("k", false, verdict, "", 0, "") }

  function PushOf(): N.Push {
    N.Push(N.Problem, "k", N.ViaTelegram, 5, N.PastDeadline, N.PastDeadline, N.PastDeadline, _ => N.PastDeadline)
  }

  /** A PROBLEM is raised while Telegram is offline and queued; it expires and reopens
      its condition; then the condition reads Good. */
  const LOST: seq<Step> :=
    [Judge(ER.Read(1, "", ReadingOf(Engine.Bad))), Notify(1, N.DoSetOffline(true)), Notify(1, N.DoNotify(PushOf())),
     Notify(2, N.DoExpire(6)), Judge(ER.Read(3, "", ReadingOf(Engine.Good)))]

  const PROBLEM := N.Message(1, 0, 5, N.Telegram, N.Problem, "k", 0)

  function NotifierAt(k: nat): N.State {
    var s := N.Initial();
    if k <= 1 then s
    else if k == 2 then s.(offline := true)
    else
      var q := s.(offline := true, failing := true, nextID := 2, queue := [PROBLEM], sends := s.sends.(nextUid := 2),
                  log := [N.Queued(0, "k")], fates := s.fates.(ever := [PROBLEM]));
      if k == 3 then q else q.(queue := [], fates := q.fates.(handed := [PROBLEM]))
  }

  function EngineAt(k: nat): ER.World {
    var c := Engine.Condition("k", "", 1, 0, 1, "", true, 1);
    var w := ER.World(1, map["k" := c], map["k" := ER.Streak(1, 1)], [ER.Raised("k")], [], []);
    var d := Dropped(PROBLEM);
    if k == 0 then ER.START
    else if k <= 3 then w
    else
      var v := w.(now := 2, conds := map["k" := c.(open := false, openedAt := 0)],
                  log := [ER.Raised("k"), ER.Reopened("k")], reopened := [d]);
      if k == 4 then v else v.(now := 3, conds := map[], streaks := map[])
  }

  function WorldAt(k: nat): World {
    World(NotifierAt(k), EngineAt(k), UR.START, [],
          if k <= 3 then START.reopened
          else if k == 4 then Reopened([PROBLEM], [PROBLEM], [], [])
          else Reopened([PROBLEM], [], [], [PROBLEM]))
  }

  lemma {:induction false} EngineSteps(plans: ER.Plans)
    requires plans("k").threshold <= 0
    ensures ER.Next(plans, EngineAt(0), LOST[0].engineStep) == EngineAt(1)
    ensures ER.Next(plans, EngineAt(3), ER.DropOne(2, Dropped(PROBLEM))) == EngineAt(4)
    ensures ER.Next(plans, EngineAt(4), LOST[4].engineStep) == EngineAt(5)
  {
    assert Engine.Truncate(1) == 0;
    var v := ER.Next(plans, EngineAt(3), ER.DropOne(2, Dropped(PROBLEM)));
    assert v.conds == EngineAt(4).conds;
    assert EngineAt(4).log + [] == EngineAt(4).log;
  }

  lemma {:induction false} QueueSteps(opts: N.Options)
    requires opts == N.Options(true, false)
    ensures N.Next(NotifierAt(1), opts, LOST[1].queueStep) == NotifierAt(2)
    ensures N.Next(NotifierAt(2), opts, LOST[2].queueStep) == NotifierAt(3)
    ensures N.Next(NotifierAt(3), opts, LOST[3].queueStep) == NotifierAt(4)
  {
    QueuesIt(opts);
    ExpiresIt();
    assert NotifierAt(1).(offline := true) == NotifierAt(2);
    hide N.Notify, N.Expire, NotifierAt;
  }

  lemma {:induction false} ExpiresIt()
    ensures N.Expire(NotifierAt(3), 6) == NotifierAt(4)
  {
    var s := NotifierAt(3);
    assert s.queue[1..] == [];
    assert N.Expired(s.queue, 6) == [PROBLEM] && N.NotBefore(s.queue, 6) == [];
  }

  /** Offline and without SMS, a push is queued. */
  lemma {:induction false} QueuesIt(opts: N.Options)
    requires opts == N.Options(true, false)
    ensures N.Notify(NotifierAt(2), opts, PushOf()) == NotifierAt(3)
  {
    var s := NotifierAt(2);
    var t := N.Notify(s, opts, PushOf());
    var r := s.(sends := s.sends.(nextUid := 2), failing := true);
    assert s.queue + [PROBLEM] == [PROBLEM] && s.fates.ever + [PROBLEM] == [PROBLEM];
    assert s.log + [N.Queued(0, "k")] == [N.Queued(0, "k")] && s.fates.handed + [] == [];
    assert N.Trimmed([PROBLEM]) == [PROBLEM] && N.Overflow([PROBLEM]) == [];
    assert N.Enqueue(r, N.Telegram, N.Problem, "k", 0, 5, N.PastDeadline) == NotifierAt(3);
    hide N.Enqueue;
    assert t == NotifierAt(3);
  }

  /** A step of the notifier that drops nothing changes the notifier only. */
  lemma {:induction false} QuietStep(st: Setting, w: World, at: Engine.Time, s: N.Step)
    requires N.Enabled(w.notifier, s) && N.Next(w.notifier, st.opts, s).fates.handed == w.notifier.fates.handed
    ensures Next(st, w, Notify(at, s)) == w.(notifier := N.Next(w.notifier, st.opts, s))
  {
    hide N.Next, N.Enabled, HandOne;
    assert Since(w.notifier.fates.handed, w.notifier.fates.handed) == [];
  }

  lemma {:induction false} LostQueues(st: Setting, k: nat)
    requires st.opts == N.Options(true, false) && 1 <= k <= 2
    ensures Enabled(st, WorldAt(k), LOST[k]) && Next(st, WorldAt(k), LOST[k]) == WorldAt(k + 1)
  {
    QueueSteps(st.opts);
    assert EngineAt(k) == EngineAt(k + 1);
    assert NotifierAt(k).fates.handed == NotifierAt(k + 1).fates.handed;
    hide N.Next, EngineAt, NotifierAt, Next;
    QuietStep(st, WorldAt(k), LOST[k].at, LOST[k].queueStep);
  }

  lemma {:induction false} LostDrops(st: Setting)
    requires st.opts == N.Options(true, false) && st.plans("k").threshold <= 0
    ensures Enabled(st, WorldAt(3), LOST[3]) && Next(st, WorldAt(3), LOST[3]) == WorldAt(4)
  {
    EngineSteps(st.plans);
    QueueSteps(st.opts);
    hide ER.Next, N.Next, UR.Next;
    var w := WorldAt(3).(notifier := NotifierAt(4));
    var ms := Since(NotifierAt(3).fates.handed, NotifierAt(4).fates.handed);
    assert ms == [PROBLEM] && ms[..0] == [];
    assert Hand(st, 2, w, []) == w;
    assert Hand(st, 2, w, ms) == HandOne(st, 2, w, PROBLEM);
  }

  lemma {:induction false} LostJudged(st: Setting)
    requires st.plans("k").threshold <= 0
    ensures Enabled(st, WorldAt(0), LOST[0]) && Next(st, WorldAt(0), LOST[0]) == WorldAt(1)
    ensures Enabled(st, WorldAt(4), LOST[4]) && Next(st, WorldAt(4), LOST[4]) == WorldAt(5)
  {
    EngineSteps(st.plans);
    assert NotifierAt(0) == NotifierAt(1) && NotifierAt(4) == NotifierAt(5);
    hide ER.Next, NotifierAt;
    assert [PROBLEM][..0] == [];
    assert Sorted(WorldAt(4).reopened, EngineAt(5).conds) == WorldAt(5).reopened;
  }

  lemma {:induction false} LostStep(st: Setting, k: nat)
    requires st.opts == N.Options(true, false) && st.plans("k").threshold <= 0 && k < 5
    ensures Enabled(st, WorldAt(k), LOST[k]) && Next(st, WorldAt(k), LOST[k]) == WorldAt(k + 1)
  {
    hide Enabled, Next, WorldAt;
    if 1 <= k <= 2 { LostQueues(st, k); } else if k == 3 { LostDrops(st); } else { LostJudged(st); }
  }

  /** In this run a PROBLEM was queued and is nowhere: not queued, sent, stale or
      listed, and its condition is gone without having been raised again. */
  lemma {:induction false} ProblemCanBeLost(st: Setting) returns (ws: seq<World>)
    requires st.opts == N.Options(true, false) && st.plans("k").threshold <= 0
    ensures Run(st, ws, LOST) && SoundLoads(st, LOST)
    ensures var (w, f) := (ws[5], ws[5].notifier.fates);
            && f.ever == [PROBLEM] && w.reopened.unheard == [PROBLEM]
            && w.notifier.queue == [] && f.sent == [] && f.stale == [] && w.listed == []
            && w.notifier.sends.delivered == multiset{} && w.undelivered.listed == multiset{}
            && w.engine.conds == map[] && w.engine.log == [ER.Raised("k"), ER.Reopened("k")]
  {
    ws := seq(6, k requires 0 <= k < 6 => WorldAt(k));
    forall i | 0 <= i < 5 ensures Enabled(st, ws[i], LOST[i]) && ws[i + 1] == Next(st, ws[i], LOST[i]) {
      LostStep(st, i);
    }
    hide Next, Enabled;
  }
}
