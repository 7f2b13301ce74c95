/** The memory guard at work: its loop, the action it runs beside it, the records
    it hands on to be stored, and the records restored into it late. Each step is
    taken with the lock its code holds, or by the goroutine that owns the data, so
    a run is an interleaving of these steps under a clock that never goes back. */
module GuardLoop {
  import opened Basics
  import opened Episode
  import opened Culprits
  import opened Rings

  /** guardState: the records between the loop, the writer and the store. */
  datatype Shelf = Shelf(
    records: seq<Record>, late: seq<Record>, started: bool, loopSave: bool, restored: bool, version: nat, written: nat)

  /** An action running beside the loop, and how one ended. */
  datatype Job = Job(service: Service, record: Record)
  datatype Result = Result(job: Job, record: Record, ok: bool)

  /** Records on their way to the store; `covers` is history: what had been
      restored when they were gathered. */
  datatype Snapshot = Snapshot(records: seq<Record>, version: nat, covers: set<Record>)

  datatype Setting = Setting(cfg: Config, setup: Setup)

  /** `history` (every record the guard was given or made, never pruned),
      `restored` and `restoredLate` are kept by no field of the program. */
  datatype World = World(
    now: Time,
    guard: Guard,
    whole: map<Key, Tracked>, sampledAt: Time, nextServices: Time,
    running: Option<Job>, results: Option<Result>,
    lateChannel: Option<seq<Record>>, handing: Option<seq<Record>>,
    states: Option<seq<Record>>, saving: Option<seq<Record>>,
    shelf: Shelf,
    writing: Option<Snapshot>, stored: seq<Record>,
    stopping: bool,
    history: seq<Record>, restored: set<Record>, restoredLate: set<Record>)

  // ---------------------------------------------------------------- the shelf

  function Without(late: seq<Record>, records: seq<Record>, window: int, now: Time): (r: seq<Record>)
    ensures forall x :: x in r <==> x in late && x.Within(window, now) && x !in records
  {
    if late == [] then []
    else
      assert late == [late[0]] + late[1..];
      var rest := Without(late[1..], records, window, now);
      if late[0].Within(window, now) && late[0] !in records then [late[0]] + rest else rest
  }

  /** guardState.Save: the late records the loop now holds are dropped. */
  function ShelfSave(s: Shelf, records: seq<Record>, window: int, now: Time): Shelf {
    s.(records := records, loopSave := true, late := Without(s.late, records, window, now), version := s.version + 1)
  }

  /** guardState.Restore, up to the handoff. */
  function ShelfRestore(s: Shelf, records: seq<Record>): Shelf {
    var t := s.(restored := true);
    if s.started then t.(late := records, version := s.version + 1)
    else if !s.loopSave then t.(records := records)
    else t
  }

  /** guardState.all. */
  function All(s: Shelf, window: int, now: Time): seq<Record> {
    if s.late == [] then s.records else MergeRecords(s.records, s.late, window, now)
  }

  predicate Unwritten(s: Shelf) { s.restored && s.version != s.written }

  // ---------------------------------------------------------------- the loop

  function SaveState(w: World, window: int): World {
    w.(states := Some(Prune(w.guard.records, window, w.now)))
  }

  datatype Pick = TakeResult | TakeLate | TakeNothing

  predicate CanPick(w: World, pick: Pick) {
    match pick
    case TakeResult => w.results.Some?
    case TakeLate => w.lateChannel.Some?
    case TakeNothing => w.results.None? && w.lateChannel.None?
  }

  /** collect: one finished action or one batch of late records per beat. */
  function Collect(st: Setting, w: World, pick: Pick): World
    requires CanPick(w, pick)
  {
    match pick
    case TakeResult =>
      var r := w.results.value;
      var v := w.(results := None, guard := ActionDone(st.cfg, w.guard, w.now, r.record, r.ok),
                  history := if r.ok then w.history + [r.record] else w.history);
      if r.ok then SaveState(v, st.cfg.repeatWindow) else v
    case TakeLate =>
      var more := w.lateChannel.value;
      SaveState(w.(lateChannel := None,
                   guard := w.guard.(records := MergeRecords(w.guard.records, more, st.cfg.repeatWindow, w.now)),
                   history := w.history + more), st.cfg.repeatWindow)
    case TakeNothing => w
  }

  /** The services are read when due; a failed read only moves the next one. */
  function ReadServices(st: Setting, w: World, samples: Option<seq<Sample>>): World {
    if w.now < w.nextServices then w
    else
      var v := w.(nextServices := w.now + SERVICE_INTERVAL);
      if samples.None? then v
      else v.(whole := Observed(st.setup, w.whole, w.now, samples.value), sampledAt := w.now)
  }

  /** The record a decision in report mode has just added. */
  function Newest(records: seq<Record>): seq<Record> {
    if records == [] then [] else [records[|records| - 1]]
  }

  /** The host is read and judged; `c` is the culprit the histories show. */
  function ReadHost(st: Setting, w: World, h: Option<Host>, c: Option<Culprit>): World {
    if h.None? then w
    else
      var (g, d) := Observe(st.cfg, w.guard, h.value, c);
      var v := w.(guard := g);
      if d.None? then v
      else if d.value.kind.WouldRestart? || d.value.kind.WouldStop? then
        SaveState(v.(history := w.history + Newest(g.records)), st.cfg.repeatWindow)
      else if d.value.act && d.value.culprit.Some? && d.value.record.Some? then
        v.(running := Some(Job(d.value.culprit.value.service, d.value.record.value)))
      else v
  }

  datatype Step =
    | Beat(at: Time, pick: Pick, samples: Option<seq<Sample>>, host: Option<Host>, culprit: Option<Culprit>)
    | Finish(at: Time, ok: bool, killed: bool)
    | Restore(at: Time, read: seq<Record>)
    | Handoff(at: Time)
    | Start(at: Time)
    | TakeState(at: Time)
    | Save(at: Time)
    | WriteBegin(at: Time)
    | WriteEnd(at: Time, ok: bool)
    | Stop(at: Time)

  ghost predicate Enabled(st: Setting, w: World, step: Step) {
    && step.at >= w.now && step.at > 0
    && match step
       case Beat(at, pick, samples, host, culprit) =>
         && w.shelf.started && CanPick(w, pick)
         && (samples.Some? ==> DistinctKeys(samples.value))
         && (host.Some? ==>
               && host.value.at == at
               && var v := ReadServices(st, Collect(st, w.(now := at), pick), samples);
                  Worst(st.setup, v.whole, at, culprit))
       case Finish(_, _, _) => w.running.Some?
       // The store is read by one caller at a time; what it holds is what was written.
       // A later late restore passes every record restored late.
       case Restore(_, read) =>
         && w.handing.None? && (forall r :: r in read ==> r in w.stored)
         && (w.shelf.started ==> forall r :: r in w.restoredLate ==> r in read)
       case Handoff(_) => w.handing.Some?
       case Start(_) => !w.shelf.started
       case TakeState(_) => w.states.Some? && w.saving.None?
       case Save(_) => w.saving.Some?
       case WriteBegin(_) => w.writing.None? && Unwritten(w.shelf)
       case WriteEnd(_, _) => w.writing.Some?
       case Stop(_) => true
  }

  ghost function Next(st: Setting, w0: World, step: Step): World
    requires Enabled(st, w0, step)
  {
    var w := w0.(now := step.at);
    var window := st.cfg.repeatWindow;
    match step
    case Beat(_, pick, samples, host, culprit) =>
      ReadHost(st, ReadServices(st, Collect(st, w, pick), samples), host, culprit)
    case Finish(_, ok, killed) =>
      var job := w.running.value;
      var rec := if killed then job.record.(action := Kill) else job.record;
      if w.stopping && !ok then w.(running := None)
      else w.(running := None, results := Some(Result(job, rec, ok)))
    case Restore(_, read) =>
      if w.shelf.started then
        w.(shelf := ShelfRestore(w.shelf, read), handing := Some(read),
           restored := w.restored + (set r | r in read), restoredLate := w.restoredLate + (set r | r in read))
      else w.(shelf := ShelfRestore(w.shelf, read), restored := set r | r in read)
    case Handoff(_) => w.(lateChannel := w.handing, handing := None)
    case Start(_) =>
      w.(shelf := w.shelf.(started := true),
         guard := w.guard.(records := Prune(w.shelf.records, window, w.now)), history := w.shelf.records)
    case TakeState(_) => w.(states := None, saving := w.states)
    case Save(_) => w.(saving := None, shelf := ShelfSave(w.shelf, w.saving.value, window, w.now))
    case WriteBegin(_) =>
      w.(writing := Some(Snapshot(All(w.shelf, window, w.now), w.shelf.version, w.restored)))
    case WriteEnd(_, ok) =>
      var s := w.writing.value;
      if !ok then w.(writing := None)
      else w.(writing := None, stored := s.records,
              shelf := w.shelf.(written := if s.version > w.shelf.written then s.version else w.shelf.written))
    case Stop(_) => w.(stopping := true)
  }

  function Initial(stored: seq<Record>): World {
    World(0, START, map[], 0, 0, None, None, None, None, None, None,
          Shelf([], [], false, false, false, 0, 0), None, stored, false, [], {}, {})
  }

  ghost predicate Run(st: Setting, ws: seq<World>, steps: seq<Step>) {
    && |ws| == |steps| + 1
    && ws[0] == Initial(ws[0].stored)
    && forall i :: 0 <= i < |steps| ==> Enabled(st, ws[i], steps[i]) && ws[i + 1] == Next(st, ws[i], steps[i])
  }
}
