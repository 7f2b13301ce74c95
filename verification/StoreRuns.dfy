/** A store that buffers what it could not write ends up like one that never
    failed. `ideal` is that other store: it writes every accepted checkpoint at
    once and keeps every record. */
module StoreRuns {
  import opened Basics
  import opened Store

  datatype Event =
    | Save(dirty: State, alerts: seq<Alert>, samples: seq<Sample>, outcome: Outcome)
    | Put(key: string, value: string, ok: bool)

  /** `waiting`: something was accepted since the last success. `overtaken`: the
      keys a Put wrote past an older value still pending, or written over it
      since. Neither is kept by the program. */
  datatype World = World(store: StoreState, ideal: Tables, waiting: bool, overtaken: set<string>)

  function Next(l: Limits, w: World, e: Event): World {
    match e
    case Save(dirty, alerts, samples, outcome) =>
      if !Valid(dirty, alerts) then w
      else
        World(Checkpoint(l, w.store, dirty, alerts, samples, outcome).0, Write(w.ideal, dirty, alerts, samples),
              !outcome.Written?, w.overtaken - dirty.kv.Keys)
    case Put(key, value, ok) =>
      var v := w.(store := PutKV(w.store, key, value, ok));
      if key == RATE_MARKS || !ok then v
      else
        World(v.store, w.ideal.(kv := w.ideal.kv[key := value]), w.waiting,
              if Overtakes(w.store.pending.kv, key, value) then w.overtaken + {key} else w.overtaken - {key})
  }

  predicate Overtakes(pending: map<string, string>, key: string, value: string) {
    key in pending && pending[key] != value
  }

  function Initial(db: Tables): World { World(StoreState(db, false, EMPTY, [], [], 0, 0), db, false, {}) }

  ghost predicate Run(l: Limits, ws: seq<World>, es: seq<Event>) {
    && |ws| == |es| + 1
    && ws[0] == Initial(ws[0].ideal)
    && forall i :: 0 <= i < |es| ==> ws[i + 1] == Next(l, ws[i], es[i])
  }

  // ---------------------------------------------------------------- snapshots and upserts

  function Look(kv: map<string, string>, key: string): Option<string> {
    if key in kv then Some(kv[key]) else None
  }

  /** The pending snapshot, or the stored one when nothing waits, is the ideal's. */
  ghost predicate SnapshotsOK(w: World) {
    if w.waiting then
      && w.store.pending.conditions == w.ideal.conditions && w.store.pending.queue == w.ideal.queue
      && Look(w.ideal.kv, RATE_MARKS) == Some(w.store.pending.marks)
    else
      && w.store.db.conditions == w.ideal.conditions && w.store.db.queue == w.ideal.queue
      && Look(w.ideal.kv, RATE_MARKS) == Look(w.store.db.kv, RATE_MARKS)
      && w.store.pending == EMPTY && w.store.alerts == [] && w.store.samples == []
  }

  ghost predicate BaselinesOK(w: World) {
    && OwnSerials(w.store.pending.baselines)
    && Upsert(w.store.db.baselines, w.store.pending.baselines) == w.ideal.baselines
  }

  /** Exactly the overtaken keys would be written differently. */
  ghost predicate KeysOK(w: World) {
    forall k :: k != RATE_MARKS ==>
      (k in w.overtaken <==> Look(w.store.db.kv + w.store.pending.kv, k) != Look(w.ideal.kv, k))
  }

  lemma {:induction false} SaveSnapshots(l: Limits, w: World, e: Event)
    requires e.Save? && SnapshotsOK(w)
    ensures SnapshotsOK(Next(l, w, e))
  {
    hide Valid, Upsert, MergeBaselines;
  }

  lemma {:induction false} SaveBaselines(l: Limits, w: World, e: Event)
    requires e.Save? && BaselinesOK(w)
    ensures BaselinesOK(Next(l, w, e))
  {
    hide Valid, Upsert, MergeBaselines, OwnSerials, UpsertKV, KeepNewest;
    var merged := MergeBaselines(w.store.pending.baselines, e.dirty.baselines);
    MergeWrites(w.store.db.baselines, w.store.pending.baselines, e.dirty.baselines);
    NothingPending(Upsert(w.store.db.baselines, merged));
  }

  lemma {:induction false} NothingPending(table: map<string, Baseline>)
    ensures OwnSerials([]) && Upsert(table, []) == table
  {
  }

  lemma {:induction false} UpsertKeys(table: map<string, string>, kv: map<string, string>, marks: string, k: string)
    requires k != RATE_MARKS
    ensures Look(UpsertKV(table, kv, marks), k) == Look(table + kv, k)
  {
  }

  lemma {:induction false} SaveKeys(l: Limits, w: World, e: Event)
    requires e.Save? && KeysOK(w)
    ensures KeysOK(Next(l, w, e))
  {
    if Valid(e.dirty, e.alerts) {
      var v := Next(l, w, e);
      forall k | k != RATE_MARKS
        ensures k in v.overtaken <==> Look(v.store.db.kv + v.store.pending.kv, k) != Look(v.ideal.kv, k)
      {
        var pending := w.store.pending.kv + e.dirty.kv;
        UpsertKeys(w.ideal.kv, e.dirty.kv, e.dirty.marks, k);
        UpsertKeys(w.store.db.kv, pending, e.dirty.marks, k);
        SavedKey(l, w, e, k);
      }
    }
  }

  /** What a save makes of one key, written or waiting. */
  lemma {:induction false} SavedKey(l: Limits, w: World, e: Event, k: string)
    requires e.Save? && Valid(e.dirty, e.alerts) && k != RATE_MARKS
    ensures var v := Next(l, w, e);
            && Look(v.store.db.kv + v.store.pending.kv, k) == Look(w.store.db.kv + (w.store.pending.kv + e.dirty.kv), k)
            && Look(v.ideal.kv, k) == Look(w.ideal.kv + e.dirty.kv, k)
  {
    hide Valid, Upsert, MergeBaselines, UpsertKV, KeepNewest;
    UpsertKeys(w.ideal.kv, e.dirty.kv, e.dirty.marks, k);
    UpsertKeys(w.store.db.kv, w.store.pending.kv + e.dirty.kv, e.dirty.marks, k);
  }

  lemma {:induction false} PutKeeps(l: Limits, w: World, e: Event)
    requires e.Put? && SnapshotsOK(w) && BaselinesOK(w) && KeysOK(w)
    ensures SnapshotsOK(Next(l, w, e)) && BaselinesOK(Next(l, w, e)) && KeysOK(Next(l, w, e))
  {
    hide Upsert, OwnSerials;
  }

  ghost predicate Inv(w: World) { SnapshotsOK(w) && BaselinesOK(w) && KeysOK(w) }

  lemma {:induction false} Reachable(l: Limits, ws: seq<World>, es: seq<Event>, k: nat)
    requires Run(l, ws, es) && k < |ws|
    ensures Inv(ws[k])
  {
    hide SnapshotsOK, BaselinesOK, KeysOK, Next;
    if k == 0 {
      StartOK(ws[0].ideal);
    } else {
      Reachable(l, ws, es, k - 1);
      if es[k - 1].Put? {
        PutKeeps(l, ws[k - 1], es[k - 1]);
      } else {
        SaveSnapshots(l, ws[k - 1], es[k - 1]);
        SaveBaselines(l, ws[k - 1], es[k - 1]);
        SaveKeys(l, ws[k - 1], es[k - 1]);
      }
    }
  }

  lemma {:induction false} StartOK(db: Tables)
    ensures Inv(Initial(db))
  {
    NothingPending(db.baselines);
  }

  /** Event k is an accepted checkpoint that was written. */
  ghost predicate Succeeds(e: Event) { e.Save? && Valid(e.dirty, e.alerts) && e.outcome.Written? }

  /** After a success every table of current data is the ideal's; the kv table is
      too exactly when no Put was overtaken. */
  lemma {:induction false} SuccessCatchesUp(l: Limits, ws: seq<World>, es: seq<Event>, k: nat)
    requires Run(l, ws, es) && k < |es| && Succeeds(es[k])
    ensures var db, ideal := ws[k + 1].store.db, ws[k + 1].ideal;
            && db.conditions == ideal.conditions && db.queue == ideal.queue && db.baselines == ideal.baselines
            && Look(db.kv, RATE_MARKS) == Look(ideal.kv, RATE_MARKS)
            && (forall key :: key !in ws[k + 1].overtaken ==> Look(db.kv, key) == Look(ideal.kv, key))
            && (forall key :: key in ws[k + 1].overtaken && key != RATE_MARKS ==>
                  Look(db.kv, key) != Look(ideal.kv, key))
  {
    Reachable(l, ws, es, k + 1);
    var w := ws[k + 1];
    WrittenEmpties(l, ws[k], es[k]);
    NothingPending(w.store.db.baselines);
    hide Upsert, OwnSerials, Valid;
    assert w.store.db.kv + map[] == w.store.db.kv;
  }

  lemma {:induction false} WrittenEmpties(l: Limits, w: World, e: Event)
    requires Succeeds(e)
    ensures !Next(l, w, e).waiting && Next(l, w, e).store.pending == EMPTY
  {
    hide Valid, Upsert, MergeBaselines;
  }

  /** A checkpoint that carries every key ever put leaves none overtaken, so it
      catches up on the kv table as well. */
  lemma {:induction false} CarriedKeysCatchUp(l: Limits, ws: seq<World>, es: seq<Event>, k: nat)
    requires Run(l, ws, es) && k < |es| && Succeeds(es[k])
    requires forall i :: 0 <= i < k && es[i].Put? ==> es[i].key in es[k].dirty.kv
    ensures ws[k + 1].overtaken == {} && ws[k + 1].store.db.kv == ws[k + 1].ideal.kv
  {
    hide Valid, Write;
    OvertakenWerePut(l, ws, es, k);
    hide Next;
    SuccessCatchesUp(l, ws, es, k);
    assert ws[k + 1].overtaken == ws[k].overtaken - es[k].dirty.kv.Keys by { SaveOvertakes(l, ws[k], es[k]); }
    assert ws[k + 1].overtaken == {} by {
      forall key | key in ws[k].overtaken ensures key in es[k].dirty.kv {
        var i :| PutBy(es, k, i, key);
      }
    }
    SameLooks(ws[k + 1].store.db.kv, ws[k + 1].ideal.kv);
  }

  lemma {:induction false} SaveOvertakes(l: Limits, w: World, e: Event)
    requires Succeeds(e)
    ensures Next(l, w, e).overtaken == w.overtaken - e.dirty.kv.Keys
  {
  }

  lemma {:induction false} SameLooks(a: map<string, string>, b: map<string, string>)
    requires forall key :: Look(a, key) == Look(b, key)
    ensures a == b
  {
    forall key ensures key in a <==> key in b { assert Look(a, key) == Look(b, key); }
    forall key | key in a ensures a[key] == b[key] { assert Look(a, key) == Look(b, key); }
  }

  ghost predicate PutBy(es: seq<Event>, k: nat, i: nat, key: string)
    requires k <= |es|
  {
    i < k && es[i].Put? && es[i].key == key
  }

  lemma {:induction false} OvertakenWerePut(l: Limits, ws: seq<World>, es: seq<Event>, k: nat)
    requires Run(l, ws, es) && k < |ws|
    ensures forall key :: key in ws[k].overtaken ==> exists i :: PutBy(es, k, i, key)
  {
    if k > 0 {
      hide Valid, Write, Checkpoint, PutKV;
      OvertakenWerePut(l, ws, es, k - 1);
      forall key | key in ws[k].overtaken ensures exists i :: PutBy(es, k, i, key) {
        assert ws[k] == Next(l, ws[k - 1], es[k - 1]);
        if key in ws[k - 1].overtaken {
          var i :| PutBy(es, k - 1, i, key);
          assert PutBy(es, k, i, key);
        } else {
          assert PutBy(es, k, k - 1, key);
        }
      }
    }
  }

  /** A checkpoint before event k carries the key. */
  ghost predicate CarriedBy(es: seq<Event>, k: nat, i: nat, key: string)
    requires k <= |es|
  {
    i < k && es[i].Save? && key in es[i].dirty.kv
  }

  lemma {:induction false} PendingWereCarried(l: Limits, ws: seq<World>, es: seq<Event>, k: nat)
    requires Run(l, ws, es) && k < |ws|
    ensures forall key :: key in ws[k].store.pending.kv ==> exists i :: CarriedBy(es, k, i, key)
  {
    if k > 0 {
      hide Valid, Write, MergeBaselines, KeepNewest;
      PendingWereCarried(l, ws, es, k - 1);
      forall key | key in ws[k].store.pending.kv ensures exists i :: CarriedBy(es, k, i, key) {
        assert ws[k] == Next(l, ws[k - 1], es[k - 1]);
        if key in ws[k - 1].store.pending.kv {
          var i :| CarriedBy(es, k - 1, i, key);
          assert CarriedBy(es, k, i, key);
        } else {
          assert CarriedBy(es, k, k - 1, key);
        }
      }
    }
  }

  /** A key that only Puts write, as the memory guard's is, is never overtaken. */
  lemma {:induction false} OwnKeyIsKept(l: Limits, ws: seq<World>, es: seq<Event>, k: nat, key: string)
    requires Run(l, ws, es) && k < |ws|
    requires forall i :: 0 <= i < |es| && es[i].Save? ==> key !in es[i].dirty.kv
    ensures key !in ws[k].overtaken
    ensures key != RATE_MARKS ==> Look(ws[k].store.db.kv, key) == Look(ws[k].ideal.kv, key)
  {
    NotOvertaken(l, ws, es, k, key);
    Reachable(l, ws, es, k);
    PendingWereCarried(l, ws, es, k);
    hide SnapshotsOK, BaselinesOK, Next;
    assert key !in ws[k].store.pending.kv;
    assert Look(ws[k].store.db.kv + ws[k].store.pending.kv, key) == Look(ws[k].store.db.kv, key);
  }

  lemma {:induction false} NotOvertaken(l: Limits, ws: seq<World>, es: seq<Event>, k: nat, key: string)
    requires Run(l, ws, es) && k < |ws|
    requires forall i :: 0 <= i < |es| && es[i].Save? ==> key !in es[i].dirty.kv
    ensures key !in ws[k].overtaken
  {
    if k > 0 {
      hide Valid, Write, Checkpoint, PutKV;
      NotOvertaken(l, ws, es, k - 1, key);
      PendingWereCarried(l, ws, es, k - 1);
      assert ws[k] == Next(l, ws[k - 1], es[k - 1]);
    }
  }

  /** A Put between a failed checkpoint and the next success can be undone by the
      older value that waited. */
  lemma {:induction false} PutCanBeUndone(l: Limits)
    ensures var s1 := Save(EMPTY.(kv := map["k" := "old"]), [], [], Failed);
            var w := Next(l, Next(l, Next(l, Initial(Tables([], map[], map[], [], [], [])), s1), Put("k", "new", true)),
                          Save(EMPTY, [], [], Written));
            Look(w.store.db.kv, "k") == Some("old") && Look(w.ideal.kv, "k") == Some("new")
  {
    assert "k" != RATE_MARKS by { assert |"k"| != |RATE_MARKS|; }
  }

  // ---------------------------------------------------------------- append-only records

  /** The records the accepted checkpoints among events i to k - 1 carried. */
  ghost function AlertsOf(es: seq<Event>, i: nat, k: nat): seq<Alert>
    requires i <= k <= |es|
  {
    if i == k then []
    else
      var e := es[k - 1];
      AlertsOf(es, i, k - 1) + if e.Save? && Valid(e.dirty, e.alerts) then e.alerts else []
  }

  ghost function SamplesOf(es: seq<Event>, i: nat, k: nat): seq<Sample>
    requires i <= k <= |es|
  {
    if i == k then []
    else
      var e := es[k - 1];
      SamplesOf(es, i, k - 1) + if e.Save? && Valid(e.dirty, e.alerts) then e.samples else []
  }

  ghost predicate NoSuccess(es: seq<Event>, i: nat, k: nat)
    requires i <= k <= |es|
  {
    forall j :: i <= j < k ==> !Succeeds(es[j])
  }

  /** What one event does to the alerts. */
  lemma {:induction false} AlertsMove(l: Limits, w: World, e: Event)
    requires !Succeeds(e)
    ensures var v := Next(l, w, e);
            var more := if e.Save? && Valid(e.dirty, e.alerts) then e.alerts else [];
            && v.store.db.alerts == w.store.db.alerts && v.ideal.alerts == w.ideal.alerts + more
            && (|w.store.alerts| <= l.alerts ==>
                  && v.store.alerts == KeepNewest(w.store.alerts + more, l.alerts).0
                  && v.store.droppedAlerts == w.store.droppedAlerts + KeepNewest(w.store.alerts + more, l.alerts).1)
  {
    hide Valid, Upsert, MergeBaselines, UpsertKV;
    assert w.store.alerts + [] == w.store.alerts;
  }

  lemma {:induction false} SamplesMove(l: Limits, w: World, e: Event)
    requires !Succeeds(e)
    ensures var v := Next(l, w, e);
            var more := if e.Save? && Valid(e.dirty, e.alerts) then e.samples else [];
            && v.store.db.samples == w.store.db.samples && v.ideal.samples == w.ideal.samples + more
            && (|w.store.samples| <= l.samples ==>
                  && v.store.samples == KeepNewest(w.store.samples + more, l.samples).0
                  && v.store.droppedSamples == w.store.droppedSamples + KeepNewest(w.store.samples + more, l.samples).1)
  {
    hide Valid, Upsert, MergeBaselines, UpsertKV;
    assert w.store.samples + [] == w.store.samples;
  }

  lemma {:induction false} AlertsWait(l: Limits, ws: seq<World>, es: seq<Event>, i: nat, k: nat)
    requires Run(l, ws, es) && i <= k <= |es| && NoSuccess(es, i, k) && ws[i].store.alerts == []
    ensures var a := KeepNewest(AlertsOf(es, i, k), l.alerts);
            && ws[k].store.alerts == a.0 && ws[k].store.droppedAlerts == ws[i].store.droppedAlerts + a.1
            && ws[k].store.db.alerts == ws[i].store.db.alerts
            && ws[k].ideal.alerts == ws[i].ideal.alerts + AlertsOf(es, i, k)
  {
    hide Next, Succeeds, Valid, KeepNewest;
    if i == k {
      NewestFits(AlertsOf(es, i, k), l.alerts);
    } else {
      var n := k - 1;
      var had := AlertsOf(es, i, n);
      var more := if es[n].Save? && Valid(es[n].dirty, es[n].alerts) then es[n].alerts else [];
      AlertsWait(l, ws, es, i, n);
      AlertsMove(l, ws[n], es[n]);
      assert ws[k] == Next(l, ws[n], es[n]);
      assert AlertsOf(es, i, k) == had + more;
      Gained(ws[i].ideal.alerts, [], had, more, l.alerts);
      WaitMore(had, more, l.alerts, ws[i].store.droppedAlerts);
    }
  }

  lemma {:induction false} SamplesWait(l: Limits, ws: seq<World>, es: seq<Event>, i: nat, k: nat)
    requires Run(l, ws, es) && i <= k <= |es| && NoSuccess(es, i, k) && ws[i].store.samples == []
    ensures var a := KeepNewest(SamplesOf(es, i, k), l.samples);
            && ws[k].store.samples == a.0 && ws[k].store.droppedSamples == ws[i].store.droppedSamples + a.1
            && ws[k].store.db.samples == ws[i].store.db.samples
            && ws[k].ideal.samples == ws[i].ideal.samples + SamplesOf(es, i, k)
  {
    hide Next, Succeeds, Valid, KeepNewest;
    if i == k {
      NewestFits(SamplesOf(es, i, k), l.samples);
    } else {
      var n := k - 1;
      var had := SamplesOf(es, i, n);
      var more := if es[n].Save? && Valid(es[n].dirty, es[n].alerts) then es[n].samples else [];
      SamplesWait(l, ws, es, i, n);
      SamplesMove(l, ws[n], es[n]);
      assert ws[k] == Next(l, ws[n], es[n]);
      assert SamplesOf(es, i, k) == had + more;
      Gained(ws[i].ideal.samples, [], had, more, l.samples);
      WaitMore(had, more, l.samples, ws[i].store.droppedSamples);
    }
  }

  /** What waited, bounded, and what comes, bounded again. */
  lemma {:induction false} WaitMore<T>(had: seq<T>, more: seq<T>, limit: nat, dropped: nat)
    ensures var (a, b) := (KeepNewest(had, limit), KeepNewest(had + more, limit));
            var c := KeepNewest(a.0 + more, limit);
            && |a.0| <= limit && c.0 == b.0 && dropped + a.1 + c.1 == dropped + b.1
  {
    NewestInSteps(had, more, limit);
  }

  lemma {:induction false} NewestFits<T>(s: seq<T>, limit: nat)
    requires |s| <= limit
    ensures KeepNewest(s, limit) == (s, 0)
  {
  }

  /** What waited and what comes are kept together as if they came at once. */
  lemma {:induction false} Gained<T>(ideal: seq<T>, db: seq<T>, had: seq<T>, more: seq<T>, limit: nat)
    ensures var first := KeepNewest(had, limit);
            var last := KeepNewest(first.0 + more, limit);
            var n := first.1 + last.1;
            && (ideal + had) + more == ideal + (had + more)
            && n == (if |had + more| > limit then |had + more| - limit else 0)
            && db + last.0 == db + (had + more)[n..]
  {
    NewestInSteps(had, more, limit);
  }

  /** A success appends what waited and what it carries, as far as it is kept. */
  lemma {:induction false} SuccessAppends(l: Limits, w: World, e: Event)
    requires Succeeds(e)
    ensures var v := Next(l, w, e);
            var (a, m) := (KeepNewest(w.store.alerts + e.alerts, l.alerts),
                           KeepNewest(w.store.samples + e.samples, l.samples));
            && v.store.db.alerts == w.store.db.alerts + a.0 && v.store.droppedAlerts == w.store.droppedAlerts + a.1
            && v.store.db.samples == w.store.db.samples + m.0 && v.store.droppedSamples == w.store.droppedSamples + m.1
            && v.ideal.alerts == w.ideal.alerts + e.alerts && v.ideal.samples == w.ideal.samples + e.samples
            && v.store.alerts == [] && v.store.samples == [] && !v.waiting
  {
    hide Valid, Upsert, MergeBaselines, UpsertKV;
  }

  /** Between two successes (or from the start to the first): the alerts and the
      samples the ideal store gained are those this store gained, after the oldest
      ones, as many as were counted dropped, and those only beyond the bound. */
  lemma {:induction false} SuccessKeepsNewest(l: Limits, ws: seq<World>, es: seq<Event>, i: nat, k: nat)
    requires Run(l, ws, es) && i <= k < |es| && Succeeds(es[k]) && NoSuccess(es, i, k) && !ws[i].waiting
    ensures var a, n := AlertsOf(es, i, k + 1), ws[k + 1].store.droppedAlerts - ws[i].store.droppedAlerts;
            && ws[k + 1].ideal.alerts == ws[i].ideal.alerts + a
            && 0 <= n <= |a| && n == (if |a| > l.alerts then |a| - l.alerts else 0)
            && ws[k + 1].store.db.alerts == ws[i].store.db.alerts + a[n..]
    ensures var m, n := SamplesOf(es, i, k + 1), ws[k + 1].store.droppedSamples - ws[i].store.droppedSamples;
            && ws[k + 1].ideal.samples == ws[i].ideal.samples + m
            && 0 <= n <= |m| && n == (if |m| > l.samples then |m| - l.samples else 0)
            && ws[k + 1].store.db.samples == ws[i].store.db.samples + m[n..]
  {
    hide Next, Valid, KeysOK, BaselinesOK, KeepNewest, AlertsOf, SamplesOf, NoSuccess, Succeeds;
    Reachable(l, ws, es, i);
    AlertsKept(l, ws, es, i, k);
    SamplesKept(l, ws, es, i, k);
  }

  lemma {:induction false} AlertsKept(l: Limits, ws: seq<World>, es: seq<Event>, i: nat, k: nat)
    requires Run(l, ws, es) && i <= k < |es| && Succeeds(es[k]) && NoSuccess(es, i, k) && ws[i].store.alerts == []
    ensures var a, n := AlertsOf(es, i, k + 1), ws[k + 1].store.droppedAlerts - ws[i].store.droppedAlerts;
            && ws[k + 1].ideal.alerts == ws[i].ideal.alerts + a
            && 0 <= n <= |a| && n == (if |a| > l.alerts then |a| - l.alerts else 0)
            && ws[k + 1].store.db.alerts == ws[i].store.db.alerts + a[n..]
  {
    hide Next, Valid, KeepNewest, NoSuccess;
    AlertsWait(l, ws, es, i, k);
    SuccessAppends(l, ws[k], es[k]);
    assert ws[k + 1] == Next(l, ws[k], es[k]);
    Gained(ws[i].ideal.alerts, ws[i].store.db.alerts, AlertsOf(es, i, k), es[k].alerts, l.alerts);
    assert AlertsOf(es, i, k + 1) == AlertsOf(es, i, k) + es[k].alerts;
  }

  lemma {:induction false} SamplesKept(l: Limits, ws: seq<World>, es: seq<Event>, i: nat, k: nat)
    requires Run(l, ws, es) && i <= k < |es| && Succeeds(es[k]) && NoSuccess(es, i, k) && ws[i].store.samples == []
    ensures var m, n := SamplesOf(es, i, k + 1), ws[k + 1].store.droppedSamples - ws[i].store.droppedSamples;
            && ws[k + 1].ideal.samples == ws[i].ideal.samples + m
            && 0 <= n <= |m| && n == (if |m| > l.samples then |m| - l.samples else 0)
            && ws[k + 1].store.db.samples == ws[i].store.db.samples + m[n..]
  {
    hide Next, Valid, KeepNewest, NoSuccess;
    SamplesWait(l, ws, es, i, k);
    SuccessAppends(l, ws[k], es[k]);
    assert ws[k + 1] == Next(l, ws[k], es[k]);
    Gained(ws[i].ideal.samples, ws[i].store.db.samples, SamplesOf(es, i, k), es[k].samples, l.samples);
    assert SamplesOf(es, i, k + 1) == SamplesOf(es, i, k) + es[k].samples;
  }

  // ---------------------------------------------------------------- one report per outage

  ghost predicate ReportsOutage(l: Limits, w: World, e: Event) {
    e.Save? && Checkpoint(l, w.store, e.dirty, e.alerts, e.samples, e.outcome).1.Degraded?
  }

  lemma {:induction false} StaysDegraded(l: Limits, ws: seq<World>, es: seq<Event>, i: nat, k: nat)
    requires Run(l, ws, es) && i <= k <= |es| && ws[i].store.degraded && NoSuccess(es, i, k)
    ensures ws[k].store.degraded
  {
    if i < k {
      StaysDegraded(l, ws, es, i, k - 1);
      hide Valid, Write, MergeState, KeepNewest;
      assert ws[k] == Next(l, ws[k - 1], es[k - 1]);
    }
  }

  /** The degraded error is returned once per outage: a success lies between two. */
  lemma {:induction false} OutageReportedOnce(l: Limits, ws: seq<World>, es: seq<Event>, i: nat, k: nat)
    requires Run(l, ws, es) && i < k < |es| && ReportsOutage(l, ws[i], es[i]) && ReportsOutage(l, ws[k], es[k])
    ensures exists j :: i < j < k && Succeeds(es[j])
  {
    hide Valid, Write, MergeState, KeepNewest;
    assert ws[i + 1] == Next(l, ws[i], es[i]);
    if NoSuccess(es, i + 1, k) { StaysDegraded(l, ws, es, i + 1, k); }
  }

  /** A checkpoint was taken in and its write failed. */
  ghost predicate Fails(e: Event) { e.Save? && Valid(e.dirty, e.alerts) && e.outcome.Failed? }

  /** A write failed before k, and none has succeeded since. */
  ghost predicate InOutage(es: seq<Event>, k: nat)
    requires k <= |es|
  {
    exists j :: FailedAt(es, j, k)
  }

  ghost predicate FailedAt(es: seq<Event>, j: int, k: nat)
    requires k <= |es|
  {
    0 <= j < k && Fails(es[j]) && NoSuccess(es, j, k)
  }

  lemma {:induction false} OutageStep(es: seq<Event>, k: nat)
    requires k < |es|
    ensures InOutage(es, k + 1) <==> Fails(es[k]) || (InOutage(es, k) && !Succeeds(es[k]))
  {
    hide Valid;
    if Fails(es[k]) { assert FailedAt(es, k, k + 1); }
    if InOutage(es, k) && !Succeeds(es[k]) {
      var j :| FailedAt(es, j, k);
      assert FailedAt(es, j, k + 1);
    }
    if InOutage(es, k + 1) && !Fails(es[k]) {
      var j :| FailedAt(es, j, k + 1);
      assert FailedAt(es, j, k);
    }
  }

  /** The store is marked degraded exactly during an outage. */
  lemma {:induction false} DegradedExactly(l: Limits, ws: seq<World>, es: seq<Event>, k: nat)
    requires Run(l, ws, es) && k < |ws|
    ensures ws[k].store.degraded <==> InOutage(es, k)
  {
    hide InOutage;
    if k == 0 {
      NoOutage(es);
    } else {
      DegradedExactly(l, ws, es, k - 1);
      OutageStep(es, k - 1);
      hide Valid, Write, MergeState, KeepNewest;
      assert ws[k] == Next(l, ws[k - 1], es[k - 1]);
    }
  }

  lemma {:induction false} NoOutage(es: seq<Event>)
    ensures !InOutage(es, 0)
  {
  }

  /** The degraded error comes exactly with the first failure of an outage. */
  lemma {:induction false} FirstFailureReported(l: Limits, ws: seq<World>, es: seq<Event>, k: nat)
    requires Run(l, ws, es) && k < |es|
    ensures ReportsOutage(l, ws[k], es[k]) <==> Fails(es[k]) && !InOutage(es, k)
  {
    hide InOutage, Valid, Write, MergeState, KeepNewest;
    DegradedExactly(l, ws, es, k);
  }

  // ---------------------------------------------------------------- the ideal tables

  /** The last checkpoint before k that was taken in, -1 for none. */
  ghost function LastSave(es: seq<Event>, k: nat): (j: int)
    requires k <= |es|
    ensures j == -1 || (0 <= j < k && es[j].Save? && Valid(es[j].dirty, es[j].alerts))
    ensures forall i :: j < i < k && es[i].Save? ==> !Valid(es[i].dirty, es[i].alerts)
  {
    if k == 0 then -1
    else if es[k - 1].Save? && Valid(es[k - 1].dirty, es[k - 1].alerts) then k - 1
    else LastSave(es, k - 1)
  }

  /** The last of the rows with the serial. */
  function RowIn(rows: seq<Baseline>, serial: string): (r: Option<Baseline>)
    ensures r.None? <==> forall i :: 0 <= i < |rows| ==> rows[i].serial != serial
    ensures r.Some? ==> r.value.serial == serial && r.value in rows
  {
    if rows == [] then None
    else if rows[|rows| - 1].serial == serial then Some(rows[|rows| - 1])
    else RowIn(rows[..|rows| - 1], serial)
  }

  /** The last row of the drive that a checkpoint before k brought, and the last value
      of the key that a checkpoint brought or a Put wrote. */
  ghost function LastRow(es: seq<Event>, k: nat, serial: string): Option<Baseline>
    requires k <= |es|
  {
    if k == 0 then None
    else
      var e := es[k - 1];
      var r := if e.Save? && Valid(e.dirty, e.alerts) then RowIn(e.dirty.baselines, serial) else None;
      if r.Some? then r else LastRow(es, k - 1, serial)
  }

  ghost function LastValue(es: seq<Event>, k: nat, key: string): Option<string>
    requires k <= |es|
  {
    if k == 0 then None
    else
      var e := es[k - 1];
      if e.Save? && Valid(e.dirty, e.alerts) && key in e.dirty.kv then Some(e.dirty.kv[key])
      else if e.Put? && e.ok && e.key == key then Some(e.value)
      else LastValue(es, k - 1, key)
  }

  function LookRow(table: map<string, Baseline>, serial: string): Option<Baseline> {
    if serial in table then Some(table[serial]) else None
  }

  /** A drive without data is stored with an empty object. */
  function RowOr(row: Option<Baseline>, other: Option<Baseline>): Option<Baseline> {
    if row.None? then other else Some(row.value.(data := if row.value.data == "" then "{}" else row.value.data))
  }

  lemma {:induction false} UpsertRow(table: map<string, Baseline>, rows: seq<Baseline>, serial: string)
    ensures LookRow(Upsert(table, rows), serial) == RowOr(RowIn(rows, serial), LookRow(table, serial))
  {
    if rows != [] { UpsertRow(table, rows[..|rows| - 1], serial); }
  }

  ghost predicate IdealAt(es: seq<Event>, k: nat, start: Tables, t: Tables)
    requires k <= |es|
  {
    var j := LastSave(es, k);
    && (if j < 0 then t.conditions == start.conditions && t.queue == start.queue
                      && Look(t.kv, RATE_MARKS) == Look(start.kv, RATE_MARKS)
        else t.conditions == es[j].dirty.conditions && t.queue == es[j].dirty.queue
             && Look(t.kv, RATE_MARKS) == Some(es[j].dirty.marks))
    && (forall serial ::
          LookRow(t.baselines, serial) == RowOr(LastRow(es, k, serial), LookRow(start.baselines, serial)))
    && (forall key :: key != RATE_MARKS ==> ValueAt(es, k, start, t, key))
  }

  ghost predicate ValueAt(es: seq<Event>, k: nat, start: Tables, t: Tables, key: string)
    requires k <= |es|
  {
    Look(t.kv, key) == if LastValue(es, k, key).Some? then LastValue(es, k, key) else Look(start.kv, key)
  }

  /** What a store that never failed would hold: the conditions, queue and marks of the
      last checkpoint taken in, and of each drive and each key the last row or value
      written, but for the reserved key only marks. */
  lemma {:induction false} IdealIs(l: Limits, ws: seq<World>, es: seq<Event>, k: nat)
    requires Run(l, ws, es) && k < |ws|
    ensures IdealAt(es, k, ws[0].ideal, ws[k].ideal)
  {
    hide Next, Valid;
    if k > 0 {
      IdealIs(l, ws, es, k - 1);
      var (w, e) := (ws[k - 1], es[k - 1]);
      assert ws[k] == Next(l, w, e);
      IdealNext(l, w, e);
      if e.Save? && Valid(e.dirty, e.alerts) {
        forall serial { UpsertRow(w.ideal.baselines, e.dirty.baselines, serial); }
        forall key | key != RATE_MARKS ensures ValueAt(es, k, ws[0].ideal, ws[k].ideal, key) {
          assert ValueAt(es, k - 1, ws[0].ideal, w.ideal, key);
          UpsertKeys(w.ideal.kv, e.dirty.kv, e.dirty.marks, key);
        }
      } else {
        forall key | key != RATE_MARKS ensures ValueAt(es, k, ws[0].ideal, ws[k].ideal, key) {
          assert ValueAt(es, k - 1, ws[0].ideal, w.ideal, key);
        }
      }
    }
  }

  lemma {:induction false} IdealNext(l: Limits, w: World, e: Event)
    ensures Next(l, w, e).ideal ==
            match e
            case Save(dirty, alerts, samples, _) =>
              if Valid(dirty, alerts) then Write(w.ideal, dirty, alerts, samples) else w.ideal
            case Put(key, value, ok) =>
              if key == RATE_MARKS || !ok then w.ideal else w.ideal.(kv := w.ideal.kv[key := value])
  {
    hide Valid, Write, MergeState, KeepNewest;
  }
}
