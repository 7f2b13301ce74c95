/** PROBLEMs that were dropped undelivered, shown ahead of a later message. Nothing
    leaves the list until a delivered message has shown it. */
module Undelivered {
  datatype Item = Item(key: string, text: string, since: int, droppedAt: int)

  datatype Shown = Shown(items: nat, folded: nat)

  /** `showing` and `held`: a send in progress carries the prefix, with as many
      items. */
  datatype List = List(items: seq<Item>, folded: nat, showing: bool, held: nat)

  const MAX_ITEMS: nat := 50
  const MAX_UNITS: nat := 4096
  const NOTHING := Shown(0, 0)

  // ---------------------------------------------------------------- texts

  /** Length in UTF-16 code units. */
  function Units(s: string): nat {
    if s == [] then 0 else Units(s[..|s| - 1]) + if s[|s| - 1] as int < 0x10000 then 1 else 2
  }

  lemma {:induction false} UnitsAdd(a: string, b: string)
    ensures Units(a + b) == Units(a) + Units(b)
  {
    if b == [] {
      assert a + b == a;
    } else {
      var n := |b| - 1;
      assert (a + b)[..|a + b| - 1] == a + b[..n];
      UnitsAdd(a, b[..n]);
    }
  }

  const HEADER := "Undelivered earlier:\n"

  function Decimal(n: nat): string {
    if n < 10 then ["0123456789"[n]] else Decimal(n / 10) + ["0123456789"[n % 10]]
  }

  function Tail(folded: nat): string {
    if folded > 0 then "… and " + Decimal(folded) + " more undelivered PROBLEMs\n" else ""
  }

  /** How an item is written depends on the time; its text is not modelled. */
  type Writer = (Item, int) -> string

  function Lines(line: Writer, items: seq<Item>, now: int): string {
    if items == [] then "" else Lines(line, items[..|items| - 1], now) + line(items[|items| - 1], now)
  }

  function Block(line: Writer, items: seq<Item>, folded: nat, now: int): string {
    HEADER + Lines(line, items, now) + Tail(folded) + "\n"
  }

  lemma {:induction false} BlockUnits(line: Writer, items: seq<Item>, folded: nat, now: int)
    ensures Units(Block(line, items, folded, now)) ==
            Units(HEADER) + Units(Lines(line, items, now)) + Units(Tail(folded)) + Units("\n")
  {
    hide Units;
    UnitsAdd(HEADER, Lines(line, items, now));
    UnitsAdd(HEADER + Lines(line, items, now), Tail(folded));
    UnitsAdd(HEADER + Lines(line, items, now) + Tail(folded), "\n");
  }

  // ---------------------------------------------------------------- the list

  function Add(u: List, p: Item): List {
    if |u.items| >= MAX_ITEMS then u.(folded := u.folded + 1) else u.(items := u.items + [p])
  }

  predicate IsEmpty(u: List) { u.items == [] && u.folded == 0 }

  /** Whether the block with the oldest n items fits. */
  predicate Fits(line: Writer, u: List, n: nat, limit: int, now: int)
    requires n <= |u.items|
  {
    Units(Block(line, u.items[..n], u.folded, now)) <= limit
  }

  /** What Prefix shows: as many of the oldest items as fit one by one. */
  ghost predicate Shows(line: Writer, u: List, limit: int, now: int, prefix: string, s: Shown) {
    && s.items <= |u.items| && s.folded <= u.folded
    && (prefix == "" ==> s == NOTHING)
    && (prefix != "" ==>
          && !IsEmpty(u) && s.folded == u.folded && s.items + s.folded > 0
          && prefix == Block(line, u.items[..s.items], u.folded, now) && Units(prefix) <= limit)
    // Nothing is held back that would fit.
    && (s.items < |u.items| ==> !Fits(line, u, s.items + 1, limit, now))
    && (prefix == "" && u.folded > 0 ==> !Fits(line, u, 0, limit, now))
  }

  function Ack(u: List, s: Shown): List {
    var n := if s.items <= |u.items| then s.items else |u.items|;
    u.(items := u.items[n..], folded := if u.folded > s.folded then u.folded - s.folded else 0)
  }

  function Take(u: List, s: Shown): List { u.(showing := true, held := s.items) }

  function Release(u: List, s: Shown, delivered: bool): List {
    var v := u.(showing := false, held := 0);
    if delivered then Ack(v, s) else v
  }

  /** A stored value as decoded: the newest items beyond the bound are counted. */
  function Decode(items: seq<Item>, folded: int): (r: (seq<Item>, nat))
    ensures |r.0| <= MAX_ITEMS && r.0 <= items
    ensures |r.0| + r.1 == |items| + if folded > 0 then folded else 0
    ensures |r.0| < |items| ==> |r.0| == MAX_ITEMS
  {
    var f := if folded > 0 then folded else 0;
    if |items| > MAX_ITEMS then (items[..MAX_ITEMS], f + (|items| - MAX_ITEMS)) else (items, f)
  }

  function Restore(u: List, items: seq<Item>, folded: nat): List {
    var at := if u.held <= |u.items| then u.held else |u.items|;
    var all := u.items[..at] + items + u.items[at..];
    if |all| > MAX_ITEMS then u.(items := all[..MAX_ITEMS], folded := u.folded + folded + (|all| - MAX_ITEMS))
    else u.(items := all, folded := u.folded + folded)
  }

  // ---------------------------------------------------------------- the object

  class UndeliveredList {
    const line: Writer
    var items: seq<Item>
    var folded: nat
    var showing: bool
    var held: nat

    constructor (line: Writer)
      ensures this.line == line && Now() == List([], 0, false, 0)
    {
      this.line := line;
      items, folded, showing, held := [], 0, false, 0;
    }

    ghost function Now(): List
      reads this
    {
      List(items, folded, showing, held)
    }

    method ListOne(p: Item)
      modifies this
      ensures Now() == Add(old(Now()), p)
    {
      if |items| >= MAX_ITEMS {
        folded := folded + 1;
        return;
      }
      items := items + [p];
    }

    method Prefix(limit: int, now: int) returns (prefix: string, s: Shown)
      ensures Shows(line, Now(), limit, now, prefix, s)
    {
      hide Units, Decimal, Tail;
      if |items| == 0 && folded == 0 { return "", NOTHING; }
      var tail := Tail(folded);
      var used := Units(HEADER) + Units(tail) + Units("\n");
      BlockUnits(line, [], folded, now);
      NoUnits();
      if used > limit {
        TooLong(line, Now(), limit, now);
        return "", NOTHING;
      }
      var b, n := HEADER, 0;
      while n < |items|
        invariant n <= |items| && b == HEADER + Lines(line, items[..n], now)
        invariant used == Units(Block(line, items[..n], folded, now)) <= limit
      {
        assert items[..n + 1][..n] == items[..n];
        var text := line(items[n], now);
        var units := Units(text);
        OneMore(line, items, n, folded, now);
        if used + units > limit { break; }
        used := used + units;
        b := b + text;
        n := n + 1;
      }
      if n == 0 && folded == 0 { return "", NOTHING; }
      prefix, s := b + tail + "\n", Shown(n, folded);
    }

    method TakePrefix(limit: int, now: int) returns (prefix: string, s: Shown, taken: bool)
      modifies this
      ensures taken ==> !old(showing) && prefix != "" && Now() == Take(old(Now()), s)
      ensures !taken ==> prefix == "" && s == NOTHING && Now() == old(Now())
      ensures Shows(line, old(Now()), limit, now, prefix, s) || (prefix == "" && (old(showing) || IsEmpty(old(Now()))))
    {
      if showing || (|items| == 0 && folded == 0) { return "", NOTHING, false; }
      hide Shows;
      prefix, s := Prefix(limit, now);
      ShownNothing(line, Now(), limit, now, prefix, s);
      if prefix == "" { return "", NOTHING, false; }
      showing, held := true, s.items;
      taken := true;
    }

    method ReleasePrefix(s: Shown, delivered: bool)
      modifies this
      ensures Now() == Release(old(Now()), s, delivered)
    {
      showing, held := false, 0;
      if delivered {
        var n := if s.items <= |items| then s.items else |items|;
        items := items[n..];
        folded := if folded > s.folded then folded - s.folded else 0;
      }
    }

    method RestoreStored(raw: seq<Item>, rawFolded: int)
      modifies this
      ensures var d := Decode(raw, rawFolded); Now() == Restore(old(Now()), d.0, d.1)
    {
      var (stored, more) := Decode(raw, rawFolded);
      var at := if held <= |items| then held else |items|;
      items := items[..at] + stored + items[at..];
      folded := folded + more;
      if |items| > MAX_ITEMS {
        folded := folded + (|items| - MAX_ITEMS);
        items := items[..MAX_ITEMS];
      }
    }
  }

  lemma {:induction false} NoUnits()
    ensures Units("") == 0
  {
  }

  lemma {:induction false} ShownNothing(line: Writer, u: List, limit: int, now: int, prefix: string, s: Shown)
    requires Shows(line, u, limit, now, prefix, s)
    ensures prefix == "" ==> s == NOTHING
  {
  }

  lemma {:induction false} OneMore(line: Writer, items: seq<Item>, n: nat, folded: nat, now: int)
    requires n < |items|
    ensures Units(Block(line, items[..n + 1], folded, now)) ==
            Units(Block(line, items[..n], folded, now)) + Units(line(items[n], now))
  {
    hide Units, Tail;
    assert items[..n + 1][..n] == items[..n];
    BlockUnits(line, items[..n], folded, now);
    BlockUnits(line, items[..n + 1], folded, now);
    UnitsAdd(Lines(line, items[..n], now), line(items[n], now));
  }

  lemma {:induction false} TooLong(line: Writer, u: List, limit: int, now: int)
    requires Units(HEADER) + Units(Tail(u.folded)) + Units("\n") > limit
    ensures forall n :: 0 <= n <= |u.items| ==> !Fits(line, u, n, limit, now)
  {
    hide Units, Tail;
    forall n | 0 <= n <= |u.items| ensures !Fits(line, u, n, limit, now) {
      BlockUnits(line, u.items[..n], u.folded, now);
    }
  }

  /** With the prefix ahead a message stays within the limit when it does alone;
      a longer one goes without. */
  lemma {:induction false} MessageFits(line: Writer, u: List, text: string, now: int, prefix: string, s: Shown)
    requires Shows(line, u, MAX_UNITS - Units(text), now, prefix, s)
    ensures Units(prefix + text) <= if Units(text) > MAX_UNITS then Units(text) else MAX_UNITS
    ensures prefix != "" ==> Units(prefix + text) <= MAX_UNITS
  {
    UnitsAdd(prefix, text);
    NoUnits();
    hide Units;
  }
}
