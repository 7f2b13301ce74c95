/** Grouping the received parts of concatenated messages. */
module SmsInbox {
  import opened Basics
  import opened SmsParts

  datatype Message = Message(id: int, sender: string, udh: string, text: string)

  datatype Key = Key(sender: string, ref: nat, total: nat)

  /** `total` is 0 for a single-part message. */
  datatype Group = Group(sender: string, total: nat, parts: map<nat, string>, ids: seq<int>, dups: nat)
  {
    function Add(m: Message, seqNo: nat): Group {
      var g := this.(ids := ids + [m.id]);
      if seqNo in parts then g.(dups := dups + 1) else g.(parts := parts[seqNo := m.text])
    }

    predicate Complete() { total == 0 || |parts| >= total }
  }

  function Empty(sender: string, total: nat): Group { Group(sender, total, map[], [], 0) }

  /** The groups in first-seen order, and where each key's group is. */
  datatype Inbox = Inbox(out: seq<Group>, byKey: map<Key, nat>)

  ghost predicate Sound(b: Inbox) {
    && (forall k :: k in b.byKey ==> b.byKey[k] < |b.out|)
    && (forall k, l :: k in b.byKey && l in b.byKey && k != l ==> b.byKey[k] != b.byKey[l])
  }

  /** The key and the sequence number of a concatenated part. */
  function KeyOf(m: Message): (r: Option<(Key, nat)>)
    ensures r.Some? ==> 1 <= r.value.1 <= r.value.0.total < 256
  {
    var info := ParseUDH(m.udh);
    if info.None? then None else Some((Key(m.sender, info.value.ref, info.value.total), info.value.seqNo))
  }

  ghost function Place(b: Inbox, m: Message): (r: Inbox)
    requires Sound(b)
    ensures Sound(r)
  {
    var k := KeyOf(m);
    if k.None? then b.(out := b.out + [Empty(m.sender, 0).Add(m, 1)])
    else
      var (key, seqNo) := k.value;
      if key in b.byKey then b.(out := b.out[b.byKey[key] := b.out[b.byKey[key]].Add(m, seqNo)])
      else Inbox(b.out + [Empty(m.sender, key.total).Add(m, seqNo)], b.byKey[key := |b.out|])
  }

  ghost function Grouped(msgs: seq<Message>): (b: Inbox)
    ensures Sound(b)
  {
    if msgs == [] then Inbox([], map[]) else Place(Grouped(msgs[..|msgs| - 1]), msgs[|msgs| - 1])
  }

  // ---------------------------------------------------------------- the objects

  class InboxGroup {
    const sender: string
    const total: nat
    var parts: map<nat, string>
    var ids: seq<int>
    var dups: nat

    constructor (sender: string, total: nat)
      ensures View() == Empty(sender, total)
    {
      this.sender, this.total := sender, total;
      parts, ids, dups := map[], [], 0;
    }

    ghost function View(): Group
      reads this
    {
      Group(sender, total, parts, ids, dups)
    }

    method Add(m: Message, seqNo: nat)
      modifies this
      ensures View() == old(View()).Add(m, seqNo)
    {
      ids := ids + [m.id];
      if seqNo in parts { dups := dups + 1; } else { parts := parts[seqNo := m.text]; }
    }

    /** The parts in ascending order. */
    method Text() returns (text: string)
      ensures forall n :: Below(parts, n) ==> text == Joined(parts, n)
    {
      hide Insert;
      var seqs := SortedKeys(parts);
      text := "";
      ghost var low := 0;
      for i := 0 to |seqs|
        invariant low == if i == 0 then 0 else seqs[i - 1] + 1
        invariant text == Joined(parts, low)
      {
        assert seqs[i] in seqs;
        NoneBetween(parts, seqs, i);
        JoinedSkips(parts, low, seqs[i]);
        text := text + parts[seqs[i]];
        low := seqs[i] + 1;
      }
      NoneBetween(parts, seqs, |seqs|);
      forall n | Below(parts, n) ensures text == Joined(parts, n) {
        if |seqs| > 0 { assert seqs[|seqs| - 1] in seqs; }
        JoinedSkips(parts, low, n);
      }
    }
  }

  /** The sequence numbers held, sorted. */
  method SortedKeys(parts: map<nat, string>) returns (seqs: seq<nat>)
    ensures Ascending(seqs) && forall s :: s in seqs <==> s in parts
  {
    hide Insert, Ascending;
    var left := parts.Keys;
    seqs := [];
    NoneSorted();
    while left != {}
      invariant left <= parts.Keys && Ascending(seqs)
      invariant forall s :: s in seqs <==> s in parts && s !in left
      decreases |left|
    {
      var s :| s in left;
      InsertKeeps(seqs, s);
      seqs := Insert(seqs, s);
      left := left - {s};
    }
  }

  lemma {:induction false} NoneSorted()
    ensures Ascending([])
  {
  }

  ghost predicate Below(parts: map<nat, string>, n: nat) { forall s :: s in parts ==> s < n }

  /** No part lies between two neighbours of the sorted list, or after its end. */
  lemma {:induction false} NoneBetween(parts: map<nat, string>, seqs: seq<nat>, i: nat)
    requires i <= |seqs| && Ascending(seqs) && forall s :: s in seqs <==> s in parts
    ensures forall s :: s in parts ==> (i > 0 && s <= seqs[i - 1]) || (i < |seqs| && s >= seqs[i])
  {
    forall s | s in parts ensures (i > 0 && s <= seqs[i - 1]) || (i < |seqs| && s >= seqs[i]) {
      assert s in seqs;
      var j :| 0 <= j < |seqs| && seqs[j] == s;
    }
  }

  ghost predicate Ascending(s: seq<nat>) { forall i, j :: 0 <= i < j < |s| ==> s[i] < s[j] }

  function Insert(s: seq<nat>, x: nat): seq<nat> {
    if s == [] || s[|s| - 1] < x then s + [x] else Insert(s[..|s| - 1], x) + [s[|s| - 1]]
  }

  lemma {:induction false} InsertKeeps(s: seq<nat>, x: nat)
    requires Ascending(s) && x !in s
    ensures Ascending(Insert(s, x)) && forall y :: y in Insert(s, x) <==> y in s || y == x
  {
    if s != [] {
      var n := |s| - 1;
      assert s == s[..n] + [s[n]];
      if s[n] >= x {
        assert s[n] in s;
        InsertKeeps(s[..n], x);
        var front := Insert(s[..n], x);
        forall i | 0 <= i < |front| ensures front[i] < s[n] { assert front[i] in front; }
      }
    }
  }

  /** The parts numbered below n, in order. */
  function Joined(parts: map<nat, string>, n: nat): string {
    if n == 0 then "" else Joined(parts, n - 1) + if n - 1 in parts then parts[n - 1] else ""
  }

  lemma {:induction false} JoinedSkips(parts: map<nat, string>, lo: nat, hi: nat)
    requires lo <= hi && forall s :: lo <= s < hi ==> s !in parts
    ensures Joined(parts, hi) == Joined(parts, lo)
  {
    if lo < hi { JoinedSkips(parts, lo, hi - 1); }
  }

  // ---------------------------------------------------------------- grouping

  ghost predicate Shown(out: seq<InboxGroup>, byKey: map<Key, InboxGroup>, b: Inbox)
    reads out
  {
    && |out| == |b.out| && (forall j :: 0 <= j < |out| ==> out[j].View() == b.out[j])
    && (forall i, j :: 0 <= i < j < |out| ==> out[i] != out[j])
    && byKey.Keys == b.byKey.Keys
    && (forall k :: k in byKey ==> b.byKey[k] < |out| && byKey[k] == out[b.byKey[k]])
  }

  /** One round of the loop: m goes to a group of its own or to its key's. */
  method PlaceOne(out: seq<InboxGroup>, byKey: map<Key, InboxGroup>, m: Message, ghost b: Inbox)
    returns (more: seq<InboxGroup>, keys: map<Key, InboxGroup>)
    requires Sound(b) && Shown(out, byKey, b)
    modifies out
    ensures Shown(more, keys, Place(b, m))
    ensures forall j :: 0 <= j < |more| ==> more[j] in out || fresh(more[j])
  {
    hide KeyOf, Place, Sound;
    PlaceCases(b, m);
    var k := KeyOf(m);
    if k.None? {
      var g := new InboxGroup(m.sender, 0);
      g.Add(m, 1);
      more, keys := out + [g], byKey;
    } else {
      var (key, seqNo) := k.value;
      if key !in byKey {
        var g := new InboxGroup(m.sender, key.total);
        g.Add(m, seqNo);
        more, keys := out + [g], byKey[key := g];
      } else {
        PlaceKnown(out, byKey, m, key, seqNo, b);
        more, keys := out, byKey;
      }
    }
  }

  /** The part goes to the group its key has. */
  method PlaceKnown(out: seq<InboxGroup>, byKey: map<Key, InboxGroup>, m: Message, key: Key, seqNo: nat, ghost b: Inbox)
    requires Shown(out, byKey, b) && key in byKey
    modifies byKey[key]
    ensures Shown(out, byKey, b.(out := b.out[b.byKey[key] := b.out[b.byKey[key]].Add(m, seqNo)]))
  {
    byKey[key].Add(m, seqNo);
  }

  lemma {:induction false} PlaceCases(b: Inbox, m: Message)
    requires Sound(b)
    ensures KeyOf(m).None? ==> Place(b, m) == Inbox(b.out + [Empty(m.sender, 0).Add(m, 1)], b.byKey)
    ensures KeyOf(m).Some? ==>
              var (key, seqNo) := KeyOf(m).value;
              if key in b.byKey then
                && b.byKey[key] < |b.out|
                && Place(b, m) == b.(out := b.out[b.byKey[key] := b.out[b.byKey[key]].Add(m, seqNo)])
              else Place(b, m) == Inbox(b.out + [Empty(m.sender, key.total).Add(m, seqNo)], b.byKey[key := |b.out|])
  {
    hide KeyOf;
  }

  method GroupInbox(msgs: seq<Message>) returns (out: seq<InboxGroup>)
    ensures |out| == |Grouped(msgs).out| && forall j :: 0 <= j < |out| ==> out[j].View() == Grouped(msgs).out[j]
  {
    hide KeyOf, Place;
    out := [];
    var byKey: map<Key, InboxGroup> := map[];
    assert msgs[..0] == [];
    for i := 0 to |msgs|
      invariant Shown(out, byKey, Grouped(msgs[..i]))
      invariant forall j :: 0 <= j < |out| ==> fresh(out[j])
    {
      assert msgs[..i + 1][..i] == msgs[..i];
      out, byKey := PlaceOne(out, byKey, msgs[i], Grouped(msgs[..i]));
    }
    assert msgs[..|msgs|] == msgs;
  }

  // ---------------------------------------------------------------- what a group holds

  ghost predicate Has(m: Message, key: Key) { KeyOf(m).Some? && KeyOf(m).value.0 == key }

  /** The ids of a key's messages, in order. */
  ghost function IdsOf(msgs: seq<Message>, key: Key): seq<int> {
    if msgs == [] then []
    else
      var n := |msgs| - 1;
      IdsOf(msgs[..n], key) + if Has(msgs[n], key) then [msgs[n].id] else []
  }

  /** The text of a key's first message with the sequence number. */
  ghost function FirstText(msgs: seq<Message>, key: Key, seqNo: nat): Option<string> {
    if msgs == [] then None
    else
      var n := |msgs| - 1;
      var before := FirstText(msgs[..n], key, seqNo);
      if before.None? && Has(msgs[n], key) && KeyOf(msgs[n]).value.1 == seqNo then Some(msgs[n].text) else before
  }

  function Part(parts: map<nat, string>, seqNo: nat): Option<string> {
    if seqNo in parts then Some(parts[seqNo]) else None
  }

  /** A key's group holds exactly its messages: every id, and of each sequence
      number the first text; the others are counted as duplicates. */
  ghost predicate Holds(g: Group, msgs: seq<Message>, key: Key) {
    && g.sender == key.sender && g.total == key.total && g.ids == IdsOf(msgs, key)
    && |g.ids| == |g.parts| + g.dups
    && forall s :: Part(g.parts, s) == FirstText(msgs, key, s)
  }

  lemma {:induction false} AddHolds(g: Group, msgs: seq<Message>, m: Message, key: Key)
    requires Holds(g, msgs, key) && Has(m, key)
    ensures Holds(g.Add(m, KeyOf(m).value.1), msgs + [m], key)
  {
    hide KeyOf;
    assert (msgs + [m])[..|msgs|] == msgs;
    var h := g.Add(m, KeyOf(m).value.1);
    forall s ensures Part(h.parts, s) == FirstText(msgs + [m], key, s) {
      assert Part(g.parts, s) == FirstText(msgs, key, s);
    }
  }

  lemma {:induction false} OtherHolds(g: Group, msgs: seq<Message>, m: Message, key: Key)
    requires Holds(g, msgs, key) && !Has(m, key)
    ensures Holds(g, msgs + [m], key)
  {
    hide KeyOf;
    assert (msgs + [m])[..|msgs|] == msgs;
    forall s ensures Part(g.parts, s) == FirstText(msgs + [m], key, s) {
      assert Part(g.parts, s) == FirstText(msgs, key, s);
    }
  }

  lemma {:induction false} NoneHas(msgs: seq<Message>, key: Key)
    requires IdsOf(msgs, key) == []
    ensures forall s :: FirstText(msgs, key, s) == None
  {
    hide KeyOf;
    if msgs != [] { NoneHas(msgs[..|msgs| - 1], key); }
  }

  lemma {:induction false} NewHolds(msgs: seq<Message>, m: Message, key: Key)
    requires Has(m, key) && IdsOf(msgs, key) == [] && m.sender == key.sender
    ensures Holds(Empty(key.sender, key.total).Add(m, KeyOf(m).value.1), msgs + [m], key)
  {
    hide KeyOf;
    NoneHas(msgs, key);
    AddHolds(Empty(key.sender, key.total), msgs, m, key);
  }

  /** Every key that was received has its group, and the group is what it should
      be. */
  lemma {:induction false} KeyGroup(msgs: seq<Message>, key: Key)
    ensures key in Grouped(msgs).byKey <==> IdsOf(msgs, key) != []
    ensures key in Grouped(msgs).byKey ==> Holds(Grouped(msgs).out[Grouped(msgs).byKey[key]], msgs, key)
  {
    if msgs != [] {
      var n := |msgs| - 1;
      var m, had := msgs[n], msgs[..n];
      assert msgs == had + [m];
      KeyGroup(had, key);
      var b := Grouped(had);
      assert Grouped(msgs) == Place(b, m);
      if Has(m, key) {
        if key in b.byKey { AddHolds(b.out[b.byKey[key]], had, m, key); } else { NewHolds(had, m, key); }
      } else if key in b.byKey {
        OtherHolds(b.out[b.byKey[key]], had, m, key);
      }
      hide KeyOf, Holds;
    }
  }

  // ---------------------------------------------------------------- complete groups

  lemma {:induction false} TextsInRange(msgs: seq<Message>, key: Key, seqNo: nat)
    requires FirstText(msgs, key, seqNo).Some?
    ensures 1 <= seqNo <= key.total
  {
    if msgs != [] {
      var n := |msgs| - 1;
      if FirstText(msgs[..n], key, seqNo).Some? { TextsInRange(msgs[..n], key, seqNo); }
    }
  }

  ghost function Range(n: nat): (r: set<nat>)
    ensures |r| == n && forall s :: s in r <==> 1 <= s <= n
  {
    if n == 0 then {} else Range(n - 1) + {n}
  }

  ghost predicate AllHeld(parts: map<nat, string>, total: nat) { forall s: nat :: 1 <= s <= total ==> s in parts }

  /** Every sequence number from 1 to the total was received. */
  ghost predicate AllReceived(msgs: seq<Message>, key: Key) {
    forall s: nat :: 1 <= s <= key.total ==> FirstText(msgs, key, s).Some?
  }

  /** The pigeonhole: as many parts as the total are all of them. */
  lemma {:induction false} CountMeansAll(parts: map<nat, string>, total: nat)
    requires forall s :: s in parts ==> 1 <= s <= total
    ensures |parts| >= total <==> AllHeld(parts, total)
  {
    SubsetCount(parts.Keys, Range(total));
    assert |parts| == |parts.Keys|;
    if AllHeld(parts, total) { assert parts.Keys == Range(total); }
  }

  lemma {:induction false} HeldInRange(g: Group, msgs: seq<Message>, key: Key)
    requires Holds(g, msgs, key)
    ensures forall s :: s in g.parts ==> 1 <= s <= key.total
    ensures forall s :: s in g.parts <==> FirstText(msgs, key, s).Some?
  {
    hide FirstText;
    forall s ensures s in g.parts <==> FirstText(msgs, key, s).Some? {
      assert Part(g.parts, s) == FirstText(msgs, key, s);
    }
    forall s | s in g.parts ensures 1 <= s <= key.total { TextsInRange(msgs, key, s); }
  }

  /** A concatenated message is complete exactly when every sequence number from 1
      to its total was received. */
  lemma {:induction false} CompleteMeansAll(msgs: seq<Message>, key: Key)
    requires key in Grouped(msgs).byKey && key.total > 0
    ensures Grouped(msgs).out[Grouped(msgs).byKey[key]].Complete() <==> AllReceived(msgs, key)
  {
    hide Grouped, FirstText, KeyOf;
    KeyGroup(msgs, key);
    var g := Grouped(msgs).out[Grouped(msgs).byKey[key]];
    HeldInRange(g, msgs, key);
    CountMeansAll(g.parts, key.total);
    assert AllHeld(g.parts, key.total) <==> AllReceived(msgs, key);
  }
}
