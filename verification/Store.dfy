/** Checkpoints of a store whose writes may fail: what could not be written waits in
    memory, bounded, and the first success makes up for all of it. */
module Store {
  import opened Basics

  datatype Baseline = Baseline(
    serial: string, model: string, bus: string, data: string, firstSeen: int, lastSeen: int, retired: bool)

  datatype Queued = Queued(id: int, channel: string, kind: string, route: Option<string>, text: string)

  datatype Alert = Alert(at: int, kind: string, check: string, key: string, text: string)

  datatype Sample = Sample(at: int, metric: string, value: real)

  /** Conditions, marks and queue are whole snapshots; baselines and kv are
      upserts. The marks are their encoded text. */
  datatype State = State(
    conditions: seq<string>, baselines: seq<Baseline>, kv: map<string, string>, marks: string, queue: seq<Queued>)

  datatype Tables = Tables(
    conditions: seq<string>, baselines: map<string, Baseline>, kv: map<string, string>, queue: seq<Queued>,
    alerts: seq<Alert>, samples: seq<Sample>)

  const RATE_MARKS := "rate_marks"
  const EMPTY := State([], [], map[], "", [])

  // ---------------------------------------------------------------- one write

  function StoredData(b: Baseline): Baseline { b.(data := if b.data == "" then "{}" else b.data) }

  function Upsert(table: map<string, Baseline>, rows: seq<Baseline>): map<string, Baseline> {
    if rows == [] then table
    else
      var n := |rows| - 1;
      Upsert(table, rows[..n])[rows[n].serial := StoredData(rows[n])]
  }

  /** The reserved key is never taken from the kv values. */
  function UpsertKV(table: map<string, string>, kv: map<string, string>, marks: string): map<string, string> {
    (table + (kv - {RATE_MARKS}))[RATE_MARKS := marks]
  }

  function Write(t: Tables, s: State, alerts: seq<Alert>, samples: seq<Sample>): Tables {
    Tables(s.conditions, Upsert(t.baselines, s.baselines), UpsertKV(t.kv, s.kv, s.marks), s.queue,
           t.alerts + alerts, t.samples + samples)
  }

  // ---------------------------------------------------------------- the pending data

  /** The last `limit` elements, and how many were dropped before them. */
  function KeepNewest<T>(s: seq<T>, limit: nat): (r: (seq<T>, nat))
    ensures |r.0| + r.1 == |s| && s[r.1..] == r.0
    ensures |r.0| <= limit && (r.1 == 0 || |r.0| == limit)
  {
    if |s| <= limit then (s, 0) else (s[|s| - limit..], |s| - limit)
  }

  /** What is kept does not depend on how often the bound was applied. */
  lemma {:induction false} NewestInSteps<T>(a: seq<T>, b: seq<T>, limit: nat)
    ensures KeepNewest(KeepNewest(a, limit).0 + b, limit).0 == KeepNewest(a + b, limit).0
    ensures KeepNewest(a, limit).1 + KeepNewest(KeepNewest(a, limit).0 + b, limit).1 == KeepNewest(a + b, limit).1
  {
  }

  ghost predicate OwnSerials(bs: seq<Baseline>) {
    forall i, j :: 0 <= i < j < |bs| ==> bs[i].serial != bs[j].serial
  }

  function At(bs: seq<Baseline>, serial: string): (r: Option<nat>)
    ensures r.Some? ==> r.value < |bs| && bs[r.value].serial == serial
    ensures r.None? ==> forall i :: 0 <= i < |bs| ==> bs[i].serial != serial
  {
    if bs == [] then None
    else if bs[|bs| - 1].serial == serial then Some(|bs| - 1)
    else At(bs[..|bs| - 1], serial)
  }

  function MergeOne(bs: seq<Baseline>, b: Baseline): seq<Baseline> {
    var j := At(bs, b.serial);
    if j.Some? then bs[j.value := b] else bs + [b]
  }

  function MergeBaselines(bs: seq<Baseline>, more: seq<Baseline>): seq<Baseline> {
    if more == [] then bs
    else MergeOne(MergeBaselines(bs, more[..|more| - 1]), more[|more| - 1])
  }

  function MergeState(p: State, dirty: State): State {
    State(dirty.conditions, MergeBaselines(p.baselines, dirty.baselines), p.kv + dirty.kv, dirty.marks, dirty.queue)
  }

  // ---------------------------------------------------------------- the store

  datatype Limits = Limits(alerts: nat, samples: nat)

  datatype StoreState = StoreState(
    db: Tables, degraded: bool, pending: State, alerts: seq<Alert>, samples: seq<Sample>,
    droppedAlerts: nat, droppedSamples: nat)

  datatype Outcome = Cancelled | Failed | Written
  datatype Reply = Invalid | WasCancelled | Degraded | Quiet

  predicate ValidQueued(m: Queued) {
    && m.channel in {"tlg", "sms", "email"}
    && m.kind in {"problem", "resolved", "event"}
    && m.route != Some("")
  }

  predicate ValidAlert(a: Alert) {
    a.kind in {"problem", "resolved", "event", "fix", "retired", "cleared", "checker_error"}
  }

  predicate Valid(dirty: State, alerts: seq<Alert>) {
    && (forall i :: 0 <= i < |alerts| ==> ValidAlert(alerts[i]))
    && (forall i :: 0 <= i < |dirty.queue| ==> ValidQueued(dirty.queue[i]))
  }

  /** Takes the data in; nothing is written yet. */
  function Accept(l: Limits, s: StoreState, dirty: State, alerts: seq<Alert>, samples: seq<Sample>): StoreState {
    var (a, na) := KeepNewest(s.alerts + alerts, l.alerts);
    var (m, nm) := KeepNewest(s.samples + samples, l.samples);
    s.(pending := MergeState(s.pending, dirty), alerts := a, samples := m,
       droppedAlerts := s.droppedAlerts + na, droppedSamples := s.droppedSamples + nm)
  }

  function Flush(s: StoreState): StoreState {
    s.(db := Write(s.db, s.pending, s.alerts, s.samples), degraded := false, pending := EMPTY, alerts := [],
       samples := [])
  }

  function Checkpoint(l: Limits, s: StoreState, dirty: State, alerts: seq<Alert>, samples: seq<Sample>, o: Outcome)
    : (StoreState, Reply)
  {
    if !Valid(dirty, alerts) then (s, Invalid)
    else
      var t := Accept(l, s, dirty, alerts, samples);
      match o
      case Cancelled => (t, WasCancelled)
      case Failed => (t.(degraded := true), if s.degraded then Quiet else Degraded)
      case Written => (Flush(t), Quiet)
  }

  /** PutKV: one value written at once, beside the checkpoints. */
  function PutKV(s: StoreState, key: string, value: string, ok: bool): StoreState {
    if key == RATE_MARKS || !ok then s else s.(db := s.db.(kv := s.db.kv[key := value]))
  }

  // ---------------------------------------------------------------- the object

  class Checkpointer {
    const limits: Limits
    var db: Tables
    var degraded: bool
    var pending: State
    var alerts: seq<Alert>
    var samples: seq<Sample>
    var droppedAlerts: nat
    var droppedSamples: nat

    constructor (limits: Limits, db: Tables)
      ensures this.limits == limits && Now() == StoreState(db, false, EMPTY, [], [], 0, 0)
    {
      this.limits, this.db := limits, db;
      degraded, pending, alerts, samples, droppedAlerts, droppedSamples := false, EMPTY, [], [], 0, 0;
    }

    ghost function Now(): StoreState
      reads this
    {
      StoreState(db, degraded, pending, alerts, samples, droppedAlerts, droppedSamples)
    }

    method Validate(dirty: State, more: seq<Alert>) returns (ok: bool)
      ensures ok <==> Valid(dirty, more)
      ensures ok <==>
              && (forall i :: 0 <= i < |more| ==>
                    more[i].kind in {"problem", "resolved", "event", "fix", "retired", "cleared", "checker_error"})
              && forall i :: 0 <= i < |dirty.queue| ==>
                   var m := dirty.queue[i];
                   && m.channel in {"tlg", "sms", "email"} && m.kind in {"problem", "resolved", "event"}
                   && (m.route.Some? ==> m.route.value != "")
    {
      for i := 0 to |more|
        invariant forall j :: 0 <= j < i ==> ValidAlert(more[j])
      {
        if !ValidAlert(more[i]) { return false; }
      }
      for i := 0 to |dirty.queue|
        invariant forall j :: 0 <= j < i ==> ValidQueued(dirty.queue[j])
      {
        if !ValidQueued(dirty.queue[i]) { return false; }
      }
      ok := true;
    }

    method Merge(dirty: State)
      requires OwnSerials(pending.baselines)
      modifies this`pending
      ensures pending == MergeState(old(pending), dirty) && OwnSerials(pending.baselines)
    {
      hide MergeOne, Indexes;
      var had := pending;
      var bases := had.baselines;
      IndexesNone();
      var byBase: map<string, nat> := map[];
      for i := 0 to |bases|
        invariant Indexes(byBase, bases[..i])
      {
        IndexesNext(byBase, bases, i);
        byBase := byBase[bases[i].serial := i];
      }
      assert bases[..|bases|] == bases && bases[..0] == [];
      for i := 0 to |dirty.baselines|
        invariant bases == MergeBaselines(had.baselines, dirty.baselines[..i])
        invariant OwnSerials(bases) && Indexes(byBase, bases)
      {
        var b := dirty.baselines[i];
        assert dirty.baselines[..i + 1][..i] == dirty.baselines[..i];
        IndexesKeep(byBase, bases, b);
        MergeOneOwn(bases, b);
        if b.serial in byBase {
          bases := bases[byBase[b.serial] := b];
        } else {
          byBase := byBase[b.serial := |bases|];
          bases := bases + [b];
        }
      }
      assert dirty.baselines[..|dirty.baselines|] == dirty.baselines;
      pending := State(dirty.conditions, bases, had.kv + dirty.kv, dirty.marks, dirty.queue);
    }

    method Add(moreAlerts: seq<Alert>, moreSamples: seq<Sample>)
      modifies this`alerts, this`samples, this`droppedAlerts, this`droppedSamples
      ensures (alerts, droppedAlerts - old(droppedAlerts)) == KeepNewest(old(alerts) + moreAlerts, limits.alerts)
      ensures (samples, droppedSamples - old(droppedSamples)) == KeepNewest(old(samples) + moreSamples, limits.samples)
    {
      var (a, na) := KeepNewest(alerts + moreAlerts, limits.alerts);
      alerts, droppedAlerts := a, droppedAlerts + na;
      var (m, nm) := KeepNewest(samples + moreSamples, limits.samples);
      samples, droppedSamples := m, droppedSamples + nm;
    }

    method Save(dirty: State, moreAlerts: seq<Alert>, moreSamples: seq<Sample>, o: Outcome) returns (reply: Reply)
      requires OwnSerials(pending.baselines)
      modifies this
      ensures (Now(), reply) == Checkpoint(limits, old(Now()), dirty, moreAlerts, moreSamples, o)
      ensures OwnSerials(pending.baselines)
    {
      hide OwnSerials, MergeState, KeepNewest, Write, Valid;
      var ok := Validate(dirty, moreAlerts);
      if !ok { return Invalid; }
      Merge(dirty);
      Add(moreAlerts, moreSamples);
      if o.Cancelled? { return WasCancelled; }
      if o.Failed? {
        if degraded { return Quiet; }
        degraded := true;
        return Degraded;
      }
      db := Write(db, pending, alerts, samples);
      degraded := false;
      pending, alerts, samples := EMPTY, [], [];
      NoSerials();
      reply := Quiet;
    }
  }

  lemma {:induction false} NoSerials()
    ensures OwnSerials([])
  {
  }

  ghost predicate Indexes(byBase: map<string, nat>, bs: seq<Baseline>) {
    && (forall k :: k in byBase ==> byBase[k] < |bs| && bs[byBase[k]].serial == k)
    && (forall i :: 0 <= i < |bs| ==> bs[i].serial in byBase)
  }

  lemma {:induction false} IndexesNone()
    ensures Indexes(map[], [])
  {
  }

  lemma {:induction false} IndexesNext(byBase: map<string, nat>, bs: seq<Baseline>, i: nat)
    requires i < |bs| && Indexes(byBase, bs[..i])
    ensures Indexes(byBase[bs[i].serial := i], bs[..i + 1])
  {
    assert bs[..i + 1] == bs[..i] + [bs[i]];
  }

  lemma {:induction false} IndexFinds(byBase: map<string, nat>, bs: seq<Baseline>, serial: string)
    requires Indexes(byBase, bs) && OwnSerials(bs)
    ensures At(bs, serial) == if serial in byBase then Some(byBase[serial]) else None
  {
    if serial in byBase { AtIs(bs, serial, byBase[serial]); }
  }

  // ---------------------------------------------------------------- merging and writing

  lemma {:induction false} UpsertAt(table: map<string, Baseline>, bs: seq<Baseline>, serial: string)
    requires OwnSerials(bs)
    ensures serial in Upsert(table, bs) <==> serial in table || At(bs, serial).Some?
    ensures serial in Upsert(table, bs) ==>
              Upsert(table, bs)[serial] ==
              if At(bs, serial).Some? then StoredData(bs[At(bs, serial).value]) else table[serial]
  {
    if bs != [] { UpsertAt(table, bs[..|bs| - 1], serial); }
  }

  lemma {:induction false} MergeOneWrites(table: map<string, Baseline>, bs: seq<Baseline>, b: Baseline)
    requires OwnSerials(bs)
    ensures OwnSerials(MergeOne(bs, b))
    ensures Upsert(table, MergeOne(bs, b)) == Upsert(table, bs)[b.serial := StoredData(b)]
  {
    hide At, StoredData, MergeOne, Upsert, OwnSerials;
    var merged := MergeOne(bs, b);
    MergeOneOwn(bs, b);
    MergeOneAt(bs, b, b.serial);
    MergeOnePut(bs, b);
    forall serial
      ensures At(merged, serial) == if serial == b.serial && At(bs, serial).None? then Some(|bs|) else At(bs, serial)
    {
      MergeOneAt(bs, b, serial);
    }
    forall serial
      ensures serial in Upsert(table, merged) <==> serial in Upsert(table, bs)[b.serial := StoredData(b)]
      ensures serial in Upsert(table, merged) ==>
                Upsert(table, merged)[serial] == Upsert(table, bs)[b.serial := StoredData(b)][serial]
    {
      UpsertAt(table, merged, serial);
      UpsertAt(table, bs, serial);
    }
  }

  lemma {:induction false} MergeOneAt(bs: seq<Baseline>, b: Baseline, serial: string)
    requires OwnSerials(bs)
    ensures OwnSerials(MergeOne(bs, b))
    ensures At(MergeOne(bs, b), serial) ==
            if serial == b.serial && At(bs, serial).None? then Some(|bs|) else At(bs, serial)
  {
    hide At;
    MergeOneOwn(bs, b);
    var merged, j := MergeOne(bs, b), At(bs, b.serial);
    if serial == b.serial {
      AtIs(merged, serial, if j.Some? then j.value else |bs|);
    } else if At(bs, serial).Some? {
      AtIs(merged, serial, At(bs, serial).value);
    }
  }

  lemma {:induction false} AtIs(bs: seq<Baseline>, serial: string, i: nat)
    requires OwnSerials(bs) && i < |bs| && bs[i].serial == serial
    ensures At(bs, serial) == Some(i)
  {
    hide At;
  }

  lemma {:induction false} MergeOnePut(bs: seq<Baseline>, b: Baseline)
    ensures var m, j := MergeOne(bs, b), At(bs, b.serial);
            if j.Some? then m == bs[j.value := b] else m == bs + [b]
  {
    hide At;
  }

  lemma {:induction false} MergeOneOwn(bs: seq<Baseline>, b: Baseline)
    requires OwnSerials(bs)
    ensures OwnSerials(MergeOne(bs, b))
  {
    hide At;
    var merged, k := MergeOne(bs, b), At(bs, b.serial);
    forall i, j | 0 <= i < j < |merged| ensures merged[i].serial != merged[j].serial {
      if k.Some? { assert bs[i].serial != bs[j].serial; }
    }
  }

  lemma {:induction false} IndexesKeep(byBase: map<string, nat>, bs: seq<Baseline>, b: Baseline)
    requires Indexes(byBase, bs) && OwnSerials(bs)
    ensures b.serial in byBase ==>
              && byBase[b.serial] < |bs| && MergeOne(bs, b) == bs[byBase[b.serial] := b]
              && Indexes(byBase, MergeOne(bs, b))
    ensures b.serial !in byBase ==>
              MergeOne(bs, b) == bs + [b] && Indexes(byBase[b.serial := |bs|], MergeOne(bs, b))
  {
    IndexFinds(byBase, bs, b.serial);
    hide At;
    if b.serial in byBase { assert byBase[b.serial] < |bs|; }
  }

  /** Writing a merge is writing both, the newer last. */
  lemma {:induction false} MergeWrites(table: map<string, Baseline>, bs: seq<Baseline>, more: seq<Baseline>)
    requires OwnSerials(bs)
    ensures OwnSerials(MergeBaselines(bs, more))
    ensures Upsert(table, MergeBaselines(bs, more)) == Upsert(Upsert(table, bs), more)
  {
    if more != [] {
      var n := |more| - 1;
      MergeWrites(table, bs, more[..n]);
      MergeOneWrites(table, MergeBaselines(bs, more[..n]), more[n]);
    }
  }
}
