/** From a text to its parts, over a network that reorders and repeats them, back to
    the text. */
module SmsRoundTrip {
  import opened Basics
  import opened SmsParts
  import opened SmsInbox

  /** Message j of what was received is part which[j] of what was sent. */
  ghost predicate Delivered(msgs: seq<Message>, parts: seq<SmsParts.Part>, which: seq<nat>, sender: string) {
    && |which| == |msgs|
    && forall j :: 0 <= j < |msgs| ==> which[j] < |parts| && Carries(msgs[j], parts[which[j]], sender)
  }

  ghost predicate Carries(m: Message, p: SmsParts.Part, sender: string) {
    m.sender == sender && m.udh == p.udh && m.text == p.text
  }

  function Ids(msgs: seq<Message>): seq<int> { seq(|msgs|, i requires 0 <= i < |msgs| => msgs[i].id) }

  lemma {:induction false} PartKey(text: string, reference: nat, i: nat, m: Message, sender: string)
    requires reference < 256 && 1 < |Build(text, reference)| < 256 && i < |Build(text, reference)|
    requires Carries(m, Build(text, reference)[i], sender)
    ensures KeyOf(m) == Some((Key(sender, reference, |Build(text, reference)|), i + 1))
  {
    hide Split, IsASCII, ParseUDH, BuildUDH, Build;
    HeaderRoundTrip(reference, |Build(text, reference)|, i + 1);
    PartHeader(text, reference, i);
  }

  lemma {:induction false} PartHeader(text: string, reference: nat, i: nat)
    requires 1 < |Build(text, reference)| && i < |Build(text, reference)|
    ensures Build(text, reference)[i].udh == BuildUDH(reference, |Build(text, reference)|, i + 1)
  {
    hide Split, IsASCII, BuildUDH;
  }

  /** Every message is of one key. */
  ghost predicate AllOf(msgs: seq<Message>, key: Key) { forall j :: 0 <= j < |msgs| ==> Has(msgs[j], key) }

  lemma {:induction false} OneGroup(msgs: seq<Message>, key: Key)
    requires AllOf(msgs, key)
    ensures IdsOf(msgs, key) == Ids(msgs)
    ensures if msgs == [] then Grouped(msgs) == Inbox([], map[])
            else |Grouped(msgs).out| == 1 && Grouped(msgs).byKey == map[key := 0]
  {
    hide KeyOf;
    if msgs != [] {
      var n := |msgs| - 1;
      var m := msgs[n];
      OneGroup(msgs[..n], key);
      PlaceCases(Grouped(msgs[..n]), m);
      assert Ids(msgs) == Ids(msgs[..n]) + [m.id];
    }
  }

  /** The first text with a sequence number is that part's, if it came. */
  lemma {:induction false} TextReceived(
    msgs: seq<Message>, parts: seq<SmsParts.Part>, which: seq<nat>, sender: string, key: Key, s: nat)
    requires Delivered(msgs, parts, which, sender)
    requires forall j :: 0 <= j < |msgs| ==> KeyOf(msgs[j]) == Some((key, which[j] + 1))
    ensures FirstText(msgs, key, s) ==
            if s >= 1 && s - 1 in which then (assert s - 1 < |parts|; Some(parts[s - 1].text)) else None
  {
    hide KeyOf;
    if msgs != [] {
      var n := |msgs| - 1;
      var had, seen := msgs[..n], which[..n];
      assert which == seen + [which[n]];
      TextReceived(had, parts, seen, sender, key, s);
      assert Carries(msgs[n], parts[which[n]], sender) && KeyOf(msgs[n]) == Some((key, which[n] + 1));
    }
  }

  lemma {:induction false} JoinedIsFlat(held: map<nat, string>, texts: seq<string>, n: nat)
    requires n <= |texts| && 0 !in held
    requires forall s :: 1 <= s <= |texts| ==> s in held && held[s] == texts[s - 1]
    ensures Joined(held, n + 1) == Flatten(texts[..n])
  {
    if n > 0 {
      JoinedIsFlat(held, texts, n - 1);
      assert texts[..n][..n - 1] == texts[..n - 1];
      assert held[n] == texts[n - 1];
    } else {
      assert Joined(held, 1) == Joined(held, 0);
    }
  }

  /** The text a group shows. */
  ghost predicate Reads(g: Group, text: string) {
    forall n :: Below(g.parts, n) ==> Joined(g.parts, n) == text
  }

  lemma {:induction false} FullGroupReads(g: Group, texts: seq<string>)
    requires forall s: nat :: s in g.parts <==> 1 <= s <= |texts|
    requires forall s :: 1 <= s <= |texts| ==> g.parts[s] == texts[s - 1]
    ensures Reads(g, Flatten(texts))
  {
    forall n | Below(g.parts, n) ensures Joined(g.parts, n) == Flatten(texts) {
      assert texts[..|texts|] == texts;
      JoinedIsFlat(g.parts, texts, |texts|);
      if |texts| > 0 {
        assert |texts| in g.parts;
        JoinedSkips(g.parts, |texts| + 1, n);
      } else {
        JoinedSkips(g.parts, 0, n);
      }
    }
  }

  /** A text of 2 to 255 parts, delivered in any order and with any repeats, is one
      group with every id; it is complete exactly when every part came, and then
      it reads as the text. */
  lemma {:induction false} PartsComeTogether(
    text: string, reference: nat, sender: string, msgs: seq<Message>, which: seq<nat>)
    requires reference < 256 && 1 < |Build(text, reference)| < 256
    requires msgs != [] && Delivered(msgs, Build(text, reference), which, sender)
    ensures |Grouped(msgs).out| == 1
    ensures var g := Grouped(msgs).out[0];
            && g.ids == Ids(msgs) && g.sender == sender
            && (g.Complete() <==> forall i :: 0 <= i < |Build(text, reference)| ==> i in which)
            && (g.Complete() ==> Reads(g, text))
  {
    hide Build, KeyOf, FirstText, Grouped, IdsOf;
    var parts := Build(text, reference);
    var key := Key(sender, reference, |parts|);
    forall j | 0 <= j < |msgs| ensures KeyOf(msgs[j]) == Some((key, which[j] + 1)) {
      assert Carries(msgs[j], parts[which[j]], sender);
      PartKey(text, reference, which[j], msgs[j], sender);
    }
    forall j | 0 <= j < |msgs| ensures Has(msgs[j], key) {}
    OneGroup(msgs, key);
    KeyGroup(msgs, key);
    CompleteMeansAll(msgs, key);
    var g := Grouped(msgs).out[0];
    AllCame(msgs, parts, which, sender, key);
    if g.Complete() {
      WholeGroup(text, reference, g, msgs, which, sender, key);
    }
  }

  lemma {:induction false} AllCame(
    msgs: seq<Message>, parts: seq<SmsParts.Part>, which: seq<nat>, sender: string, key: Key)
    requires Delivered(msgs, parts, which, sender) && key.total == |parts|
    requires forall j :: 0 <= j < |msgs| ==> KeyOf(msgs[j]) == Some((key, which[j] + 1))
    ensures AllReceived(msgs, key) <==> forall i :: 0 <= i < |parts| ==> i in which
  {
    hide KeyOf, FirstText;
    forall s: nat ensures FirstText(msgs, key, s).Some? <==> s >= 1 && s - 1 in which {
      TextReceived(msgs, parts, which, sender, key, s);
    }
    if AllReceived(msgs, key) {
      forall i | 0 <= i < |parts| ensures i in which {
        var s := i + 1;
        assert FirstText(msgs, key, s).Some?;
      }
    }
  }

  lemma {:induction false} WholeGroup(
    text: string, reference: nat, g: Group, msgs: seq<Message>, which: seq<nat>, sender: string, key: Key)
    requires Delivered(msgs, Build(text, reference), which, sender) && Holds(g, msgs, key)
    requires key.total == |Build(text, reference)| && AllReceived(msgs, key)
    requires forall j :: 0 <= j < |msgs| ==> KeyOf(msgs[j]) == Some((key, which[j] + 1))
    ensures Reads(g, text)
  {
    hide KeyOf, FirstText, Build, Split, IdsOf;
    var parts := Build(text, reference);
    var texts := Split(text, PartLength(text));
    HeldInRange(g, msgs, key);
    forall s: nat | 1 <= s <= |texts| ensures g.parts[s] == texts[s - 1] {
      assert FirstText(msgs, key, s).Some?;
      TextReceived(msgs, parts, which, sender, key, s);
      assert SmsInbox.Part(g.parts, s) == FirstText(msgs, key, s);
    }
    FullGroupReads(g, texts);
    SplitJoins(text, PartLength(text));
  }

  /** A text of one part carries no header: every delivery is a complete message of
      its own, so repeats are not joined. */
  lemma {:induction false} SinglesStayApart(
    text: string, reference: nat, sender: string, msgs: seq<Message>, which: seq<nat>)
    requires |Build(text, reference)| == 1 && Delivered(msgs, Build(text, reference), which, sender)
    ensures |Grouped(msgs).out| == |msgs|
    ensures forall j :: 0 <= j < |msgs| ==>
              && Grouped(msgs).out[j].Complete() && Grouped(msgs).out[j].ids == [msgs[j].id]
              && Reads(Grouped(msgs).out[j], text)
  {
    hide KeyOf, Build, Split, Reads, Sound, Place;
    if msgs != [] {
      var n := |msgs| - 1;
      var m := msgs[n];
      SinglesStayApart(text, reference, sender, msgs[..n], which[..n]);
      assert which[n] == 0 && Carries(m, Build(text, reference)[0], sender);
      SingleHasNoKey(text, reference, m, sender);
      PlaceCases(Grouped(msgs[..n]), m);
      var g := Empty(m.sender, 0).Add(m, 1);
      OneTextReads(g, text);
    }
  }

  lemma {:induction false} OneTextReads(g: Group, text: string)
    requires g.parts == map[1 := text]
    ensures Reads(g, text)
  {
    FullGroupReads(g, [text]);
    assert [text][..0] == [];
    assert Flatten([text]) == Flatten([]) + text;
  }

  lemma {:induction false} SingleHasNoKey(text: string, reference: nat, m: Message, sender: string)
    requires |Build(text, reference)| == 1 && Carries(m, Build(text, reference)[0], sender)
    ensures KeyOf(m).None? && m.text == text
  {
    SplitJoins(text, PartLength(text));
    var texts := Split(text, PartLength(text));
    assert texts == [texts[0]] && texts[..0] == [];
    hide Split, IsASCII;
    assert FromHex("") == Some([]);
  }

  /** Which texts come back as one group: those of two parts or more, and one of a
      single part only when it came once. */
  lemma {:induction false} OneGroupExactly(
    text: string, reference: nat, sender: string, msgs: seq<Message>, which: seq<nat>)
    requires text != [] && reference < 256 && |Build(text, reference)| < 256
    requires msgs != [] && Delivered(msgs, Build(text, reference), which, sender)
    ensures |Grouped(msgs).out| == 1 <==> |text| > PartLength(text) || |msgs| == 1
  {
    SplitJoins(text, PartLength(text));
    hide KeyOf, Build, Split, Grouped, IsASCII;
    if |Build(text, reference)| > 1 {
      PartsComeTogether(text, reference, sender, msgs, which);
    } else {
      SinglesStayApart(text, reference, sender, msgs, which);
    }
  }

  // ---------------------------------------------------------------- nothing lost

  ghost function AllIds(out: seq<Group>): multiset<int> {
    if out == [] then multiset{} else AllIds(out[..|out| - 1]) + multiset(out[|out| - 1].ids)
  }

  lemma {:induction false} ReplaceIds(out: seq<Group>, j: nat, g: Group, id: int)
    requires j < |out| && multiset(g.ids) == multiset(out[j].ids) + multiset{id}
    ensures AllIds(out[j := g]) == AllIds(out) + multiset{id}
  {
    var n := |out| - 1;
    if j < n {
      assert out[j := g][..n] == out[..n][j := g];
      ReplaceIds(out[..n], j, g, id);
    } else {
      assert out[j := g][..n] == out[..n];
    }
  }

  lemma {:induction false} AppendIds(out: seq<Group>, g: Group, id: int)
    requires g.ids == [id]
    ensures AllIds(out + [g]) == AllIds(out) + multiset{id}
  {
    assert (out + [g])[..|out|] == out;
  }

  lemma {:induction false} PlaceIds(b: Inbox, m: Message)
    requires Sound(b)
    ensures AllIds(Place(b, m).out) == AllIds(b.out) + multiset{m.id}
  {
    hide KeyOf, Sound, Place, AllIds;
    PlaceCases(b, m);
    var k := KeyOf(m);
    if k.None? {
      AppendIds(b.out, Empty(m.sender, 0).Add(m, 1), m.id);
    } else if k.value.0 in b.byKey {
      var j := b.byKey[k.value.0];
      ReplaceIds(b.out, j, b.out[j].Add(m, k.value.1), m.id);
    } else {
      AppendIds(b.out, Empty(m.sender, k.value.0.total).Add(m, k.value.1), m.id);
    }
  }

  /** Whatever was received, every message is in exactly one group. */
  lemma {:induction false} EveryMessageOnce(msgs: seq<Message>)
    ensures AllIds(Grouped(msgs).out) == multiset(Ids(msgs))
  {
    hide Place, AllIds, Sound;
    if msgs == [] {
      NoIds();
    } else {
      var n := |msgs| - 1;
      EveryMessageOnce(msgs[..n]);
      PlaceIds(Grouped(msgs[..n]), msgs[n]);
      LastId(msgs);
    }
  }

  lemma {:induction false} NoIds()
    ensures AllIds([]) == multiset{}
  {
  }

  lemma {:induction false} LastId(msgs: seq<Message>)
    requires msgs != []
    ensures multiset(Ids(msgs)) == multiset(Ids(msgs[..|msgs| - 1])) + multiset{msgs[|msgs| - 1].id}
  {
    assert Ids(msgs) == Ids(msgs[..|msgs| - 1]) + [msgs[|msgs| - 1].id];
  }
}
