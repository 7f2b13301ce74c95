/** The undelivered list over every interleaving of listing, restoring, and sends
    that take the prefix and release it. */
module UndeliveredRuns {
  import opened Basics
  import opened Undelivered

  /** The send in progress that carries the prefix, and the items it shows. */
  datatype Holder = Holder(shown: Shown, items: seq<Item>)

  /** Besides the list: everything ever listed (`listed` with its text,
      `listedCount` only counted), what delivered messages showed, and the items
      that came to be only counted. */
  datatype World = World(
    list: List, holder: Option<Holder>,
    listed: multiset<Item>, listedCount: nat,
    shown: multiset<Item>, shownCount: nat,
    folds: multiset<Item>)

  datatype Step =
    | ListOne(item: Item)
    | RestoreStored(raw: seq<Item>, rawFolded: int)
    | TakePrefix(limit: int, now: int, prefix: string, s: Shown)
    | ReleasePrefix(delivered: bool)

  ghost predicate Enabled(line: Writer, w: World, step: Step) {
    match step
    case ListOne(_) => true
    case RestoreStored(_, _) => true
    case TakePrefix(limit, now, prefix, s) =>
      !w.list.showing && !IsEmpty(w.list) && prefix != "" && Shows(line, w.list, limit, now, prefix, s)
    case ReleasePrefix(_) => w.holder.Some?
  }

  /** The items dropped from the end of a list cut to the bound. */
  function Cut(items: seq<Item>): multiset<Item> {
    if |items| > MAX_ITEMS then multiset(items[MAX_ITEMS..]) else multiset{}
  }

  function Joined(u: List, stored: seq<Item>): seq<Item> {
    var at := if u.held <= |u.items| then u.held else |u.items|;
    u.items[..at] + stored + u.items[at..]
  }

  ghost function Next(line: Writer, w: World, step: Step): World
    requires Enabled(line, w, step)
  {
    match step
    case ListOne(p) =>
      w.(list := Add(w.list, p), listed := w.listed + multiset{p},
         folds := if |w.list.items| >= MAX_ITEMS then w.folds + multiset{p} else w.folds)
    case RestoreStored(raw, rawFolded) =>
      var d := Decode(raw, rawFolded);
      w.(list := Restore(w.list, d.0, d.1), listed := w.listed + multiset(raw),
         listedCount := w.listedCount + if rawFolded > 0 then rawFolded else 0,
         folds := w.folds + Cut(raw) + Cut(Joined(w.list, d.0)))
    case TakePrefix(_, _, _, s) =>
      w.(list := Take(w.list, s), holder := Some(Holder(s, w.list.items[..s.items])))
    case ReleasePrefix(delivered) =>
      var h := w.holder.value;
      var v := w.(list := Release(w.list, h.shown, delivered), holder := None);
      if delivered then v.(shown := w.shown + multiset(h.items), shownCount := w.shownCount + h.shown.folded) else v
  }

  const START := World(List([], 0, false, 0), None, multiset{}, 0, multiset{}, 0, multiset{})

  ghost predicate Run(line: Writer, ws: seq<World>, steps: seq<Step>) {
    && |ws| == |steps| + 1 && ws[0] == START
    && forall i :: 0 <= i < |steps| ==> Enabled(line, ws[i], steps[i]) && ws[i + 1] == Next(line, ws[i], steps[i])
  }

  // ---------------------------------------------------------------- invariants

  /** What the send in progress shows is still at the front of the list. */
  ghost predicate HeldOK(u: List, holder: Option<Holder>) {
    && |u.items| <= MAX_ITEMS
    && (u.showing <==> holder.Some?)
    && (holder.None? ==> u.held == 0)
    && (holder.Some? ==>
          var h := holder.value;
          && u.held == h.shown.items == |h.items| <= |u.items| && u.items[..u.held] == h.items
          && h.shown.folded <= u.folded)
  }

  /** Nothing is lost: what was listed was shown, is listed, or is counted. */
  ghost predicate CountsOK(w: World) {
    && w.listed == w.shown + multiset(w.list.items) + w.folds
    && w.listedCount + |w.folds| == w.shownCount + w.list.folded
  }

  lemma {:induction false} CutSplits(items: seq<Item>)
    ensures multiset(items) == multiset(if |items| > MAX_ITEMS then items[..MAX_ITEMS] else items) + Cut(items)
    ensures |Cut(items)| == if |items| > MAX_ITEMS then |items| - MAX_ITEMS else 0
  {
    if |items| > MAX_ITEMS { assert items == items[..MAX_ITEMS] + items[MAX_ITEMS..]; }
  }

  lemma {:induction false} JoinedAll(u: List, stored: seq<Item>)
    ensures multiset(Joined(u, stored)) == multiset(u.items) + multiset(stored)
    ensures u.held <= |u.items| ==> |Joined(u, stored)| >= u.held && Joined(u, stored)[..u.held] == u.items[..u.held]
  {
    var at := if u.held <= |u.items| then u.held else |u.items|;
    assert u.items == u.items[..at] + u.items[at..];
  }

  function Trimmed(items: seq<Item>): seq<Item> { if |items| > MAX_ITEMS then items[..MAX_ITEMS] else items }

  lemma {:induction false} RestoreIs(u: List, stored: seq<Item>, more: nat)
    ensures var v := Restore(u, stored, more);
            && v.items == Trimmed(Joined(u, stored)) && v.folded == u.folded + more + |Cut(Joined(u, stored))|
            && v.showing == u.showing && v.held == u.held
  {
  }

  lemma {:induction false} DecodeIs(raw: seq<Item>, rawFolded: int)
    ensures var d := Decode(raw, rawFolded);
            && multiset(raw) == multiset(d.0) + Cut(raw)
            && d.1 == (if rawFolded > 0 then rawFolded else 0) + |Cut(raw)|
  {
    CutSplits(raw);
  }

  lemma {:induction false} RestoreHeld(u: List, holder: Option<Holder>, stored: seq<Item>, more: nat)
    requires HeldOK(u, holder)
    ensures HeldOK(Restore(u, stored, more), holder)
  {
    RestoreIs(u, stored, more);
    JoinedAll(u, stored);
    hide Joined, Restore, Cut;
  }

  lemma {:induction false} RestoreCounts(w: World, raw: seq<Item>, rawFolded: int, v: World)
    requires CountsOK(w) && HeldOK(w.list, w.holder)
    requires var d := Decode(raw, rawFolded);
             v == w.(list := Restore(w.list, d.0, d.1), listed := w.listed + multiset(raw),
                     listedCount := w.listedCount + (if rawFolded > 0 then rawFolded else 0),
                     folds := w.folds + Cut(raw) + Cut(Joined(w.list, d.0)))
    ensures CountsOK(v) && HeldOK(v.list, v.holder)
  {
    hide Cut, Joined, Decode, Restore, HeldOK, Trimmed;
    var (stored, more) := Decode(raw, rawFolded);
    var all := Joined(w.list, stored);
    DecodeIs(raw, rawFolded);
    RestoreHeld(w.list, w.holder, stored, more);
    JoinedAll(w.list, stored);
    CutTrims(all);
    RestoreIs(w.list, stored, more);
    assert multiset(w.list.items) + multiset(stored) == multiset(v.list.items) + Cut(all);
    Regroup(w.shown, multiset(w.list.items), w.folds, multiset(stored), Cut(raw), multiset(v.list.items), Cut(all));
    assert v.folds == w.folds + (Cut(raw) + Cut(all));
    assert |v.folds| == |w.folds| + |Cut(raw)| + |Cut(all)|;
  }

  lemma {:induction false} Regroup(
    shown: multiset<Item>, had: multiset<Item>, folds: multiset<Item>,
    stored: multiset<Item>, cut: multiset<Item>, kept: multiset<Item>, more: multiset<Item>)
    requires had + stored == kept + more
    ensures (shown + had + folds) + (stored + cut) == shown + kept + (folds + cut + more)
  {
    assert (shown + had + folds) + (stored + cut) == shown + folds + cut + (had + stored);
  }

  lemma {:induction false} CutTrims(items: seq<Item>)
    ensures multiset(items) == multiset(Trimmed(items)) + Cut(items)
  {
    CutSplits(items);
  }

  lemma {:induction false} ListCounts(w: World, p: Item, v: World)
    requires CountsOK(w) && HeldOK(w.list, w.holder)
    requires v == w.(list := Add(w.list, p), listed := w.listed + multiset{p},
                     folds := if |w.list.items| >= MAX_ITEMS then w.folds + multiset{p} else w.folds)
    ensures CountsOK(v) && HeldOK(v.list, v.holder)
  {
  }

  lemma {:induction false} ReleaseCounts(w: World, delivered: bool, v: World)
    requires CountsOK(w) && HeldOK(w.list, w.holder) && w.holder.Some?
    requires var h := w.holder.value;
             var u := w.(list := Release(w.list, h.shown, delivered), holder := None);
             v ==
             if !delivered then u
             else u.(shown := w.shown + multiset(h.items), shownCount := w.shownCount + h.shown.folded)
    ensures CountsOK(v) && HeldOK(v.list, v.holder)
  {
    var n := w.list.held;
    assert w.list.items == w.list.items[..n] + w.list.items[n..];
    if delivered {
      assert multiset(w.list.items) == multiset(w.holder.value.items) + multiset(v.list.items);
      Shift(w.shown, multiset(w.holder.value.items), multiset(v.list.items), w.folds);
    }
  }

  lemma {:induction false} Shift(
    shown: multiset<Item>, more: multiset<Item>, left: multiset<Item>, folds: multiset<Item>)
    ensures shown + (more + left) + folds == (shown + more) + left + folds
  {
  }

  lemma {:induction false} StepKeeps(line: Writer, w: World, step: Step)
    requires Enabled(line, w, step) && CountsOK(w) && HeldOK(w.list, w.holder)
    ensures CountsOK(Next(line, w, step)) && HeldOK(Next(line, w, step).list, Next(line, w, step).holder)
  {
    hide Shows, Add, Decode, Restore, Release, Cut, Joined, CountsOK, HeldOK, Take;
    match step
    case RestoreStored(raw, rawFolded) => RestoreCounts(w, raw, rawFolded, Next(line, w, step));
    case ReleasePrefix(delivered) => ReleaseCounts(w, delivered, Next(line, w, step));
    case ListOne(p) => ListCounts(w, p, Next(line, w, step));
    case TakePrefix(_, _, _, _) => TakeCounts(line, w, step);
  }

  lemma {:induction false} TakeCounts(line: Writer, w: World, step: Step)
    requires step.TakePrefix? && Enabled(line, w, step) && CountsOK(w) && HeldOK(w.list, w.holder)
    ensures CountsOK(Next(line, w, step)) && HeldOK(Next(line, w, step).list, Next(line, w, step).holder)
  {
    TakenFits(line, w, step);
    hide Shows;
  }

  lemma {:induction false} Reachable(line: Writer, ws: seq<World>, steps: seq<Step>, k: nat)
    requires Run(line, ws, steps) && k < |ws|
    ensures CountsOK(ws[k]) && HeldOK(ws[k].list, ws[k].holder)
  {
    if k > 0 {
      Reachable(line, ws, steps, k - 1);
      StepKeeps(line, ws[k - 1], steps[k - 1]);
      hide CountsOK, HeldOK, Next, Enabled;
    }
  }

  // ---------------------------------------------------------------- main results

  /** In every interleaving the PROBLEMs listed are those delivered messages
      showed, those still listed and those counted; no more than 50 are listed. */
  lemma {:induction false} NothingIsLost(line: Writer, ws: seq<World>, steps: seq<Step>, k: nat)
    requires Run(line, ws, steps) && k < |ws|
    ensures ws[k].listed == ws[k].shown + multiset(ws[k].list.items) + ws[k].folds
    ensures |ws[k].listed| + ws[k].listedCount ==
            |ws[k].shown| + ws[k].shownCount + |ws[k].list.items| + ws[k].list.folded
    ensures |ws[k].list.items| <= MAX_ITEMS
  {
    hide Next, Enabled;
    Reachable(line, ws, steps, k);
    assert |ws[k].listed| == |ws[k].shown| + |multiset(ws[k].list.items)| + |ws[k].folds|;
  }

  lemma {:induction false} HolderStays(line: Writer, ws: seq<World>, steps: seq<Step>, i: nat, k: nat)
    requires Run(line, ws, steps) && i < k <= |steps| && steps[i].TakePrefix?
    requires forall j :: i < j < k ==> !steps[j].ReleasePrefix?
    ensures steps[i].s.items <= |ws[i].list.items|
    ensures ws[k].holder == Some(Holder(steps[i].s, ws[i].list.items[..steps[i].s.items]))
  {
    hide Next, Enabled, CountsOK, HeldOK;
    HolderTakes(line, ws[i], steps[i]);
    if i + 1 < k {
      HolderStays(line, ws, steps, i, k - 1);
      Reachable(line, ws, steps, k - 1);
      HolderSame(line, ws[k - 1], steps[k - 1]);
    }
  }

  lemma {:induction false} HolderSame(line: Writer, w: World, step: Step)
    requires Enabled(line, w, step) && HeldOK(w.list, w.holder) && w.holder.Some? && !step.ReleasePrefix?
    ensures Next(line, w, step).holder == w.holder
  {
    hide Shows, Restore, Decode;
  }

  lemma {:induction false} HolderTakes(line: Writer, w: World, step: Step)
    requires Enabled(line, w, step) && step.TakePrefix?
    ensures step.s.items <= |w.list.items|
    ensures Next(line, w, step).holder == Some(Holder(step.s, w.list.items[..step.s.items]))
  {
    TakenFits(line, w, step);
  }

  /** Acknowledging removes exactly what the prefix showed when it was taken,
      whatever was listed or restored since: the clamps never bite. */
  lemma {:induction false} AckRemovesShown(line: Writer, ws: seq<World>, steps: seq<Step>, i: nat, k: nat)
    requires Run(line, ws, steps) && i < k < |steps| && steps[i].TakePrefix?
    requires steps[k].ReleasePrefix? && steps[k].delivered && forall j :: i < j < k ==> !steps[j].ReleasePrefix?
    ensures var (s, was, now) := (steps[i].s, ws[i].list, ws[k].list);
            && s.items <= |was.items| && s.items <= |now.items| && s.folded <= now.folded
            && now.items[..s.items] == was.items[..s.items]
            && ws[k + 1].list.items == now.items[s.items..]
            && ws[k + 1].list.folded == now.folded - s.folded
  {
    hide Shows, CountsOK;
    HolderStays(line, ws, steps, i, k);
    TakenFits(line, ws[i], steps[i]);
    Reachable(line, ws, steps, k);
    assert ws[k + 1] == Next(line, ws[k], steps[k]);
  }

  lemma {:induction false} TakenFits(line: Writer, w: World, step: Step)
    requires step.TakePrefix? && Enabled(line, w, step)
    ensures step.s.items <= |w.list.items| && step.s.folded <= w.list.folded
  {
  }
}
