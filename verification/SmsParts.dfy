/** Splitting a text into SMS parts and the header that joins them again: the
    concatenation elements of 3GPP TS 23.040, sections 9.2.3.24.1 and 9.2.3.24.8. */
module SmsParts {
  import opened Basics

  datatype Coding = Default | Unicode

  datatype Part = Part(text: string, coding: Coding, udh: string)

  // ---------------------------------------------------------------- splitting

  predicate IsASCII(text: string) { forall i :: 0 <= i < |text| ==> text[i] as int <= 127 }

  function PartLength(text: string): (n: nat)
    ensures n > 0
  {
    if IsASCII(text) then 160 else 67
  }

  function Split(text: string, length: nat): seq<string>
    requires length > 0
  {
    if text == [] then []
    else if |text| <= length then [text]
    else [text[..length]] + Split(text[length..], length)
  }

  function Flatten(parts: seq<string>): string {
    if parts == [] then [] else Flatten(parts[..|parts| - 1]) + parts[|parts| - 1]
  }

  lemma {:induction false} FlattenFront(p: string, parts: seq<string>)
    ensures Flatten([p] + parts) == p + Flatten(parts)
  {
    if parts != [] {
      var n := |parts| - 1;
      assert ([p] + parts)[..n + 1] == [p] + parts[..n];
      FlattenFront(p, parts[..n]);
    } else {
      assert ([p] + parts)[..0] == [];
    }
  }

  /** The parts hold the text in order; only the last may be shorter. */
  lemma {:induction false} SplitJoins(text: string, length: nat)
    requires length > 0
    ensures Flatten(Split(text, length)) == text
    ensures forall i :: 0 <= i < |Split(text, length)| ==>
              if i + 1 < |Split(text, length)| then |Split(text, length)[i]| == length
              else 0 < |Split(text, length)[i]| <= length
    ensures |Split(text, length)| > 1 <==> |text| > length
    ensures text != [] ==> Split(text, length) != []
  {
    if |text| > length {
      var rest := Split(text[length..], length);
      SplitJoins(text[length..], length);
      FlattenFront(text[..length], rest);
      assert Split(text, length) == [text[..length]] + rest;
      hide Flatten, Split;
    } else if text != [] {
      assert [text][..0] == [];
    }
  }

  // ---------------------------------------------------------------- the header

  /** Bitwise or. */
  function Or(a: nat, b: nat): nat {
    if a == 0 then b
    else if b == 0 then a
    else 2 * Or(a / 2, b / 2) + if a % 2 == 1 || b % 2 == 1 then 1 else 0
  }

  function Pow2(k: nat): (p: nat)
    ensures p > 0
  {
    if k == 0 then 1 else 2 * Pow2(k - 1)
  }

  /** Fields that share no bits are added by an or. */
  lemma {:induction false} OrAdds(q: nat, b: nat, k: nat)
    requires b < Pow2(k)
    ensures Or(q * Pow2(k), b) == q * Pow2(k) + b
  {
    if k > 0 && q > 0 && b > 0 {
      var a, half := q * Pow2(k), q * Pow2(k - 1);
      assert a == 2 * half;
      OrAdds(q, b / 2, k - 1);
      assert a > 0;
    }
  }

  function Digit(d: nat): char
    requires d < 16
  {
    "0123456789ABCDEF"[d]
  }

  /** Upper-case hexadecimal, padded with zeros to `width` digits. */
  function Hex(v: nat, width: nat): string
    decreases v, width
  {
    if v == 0 && width == 0 then ""
    else Hex(v / 16, if width > 0 then width - 1 else 0) + [Digit(v % 16)]
  }

  function HexValue(c: char): (r: Option<nat>)
    ensures r.Some? ==> r.value < 16
  {
    if '0' <= c <= '9' then Some(c as int - '0' as int)
    else if 'A' <= c <= 'F' then Some(c as int - 'A' as int + 10)
    else if 'a' <= c <= 'f' then Some(c as int - 'a' as int + 10)
    else None
  }

  /** The bytes two digits each; none when a digit is missing or is not one. */
  function FromHex(s: string): (r: Option<seq<nat>>)
    ensures r.Some? ==> forall i :: 0 <= i < |r.value| ==> r.value[i] < 256
  {
    if s == [] then Some([])
    else if |s| == 1 then None
    else
      var n := |s| - 2;
      var (rest, hi, lo) := (FromHex(s[..n]), HexValue(s[n]), HexValue(s[n + 1]));
      if rest.Some? && hi.Some? && lo.Some? then Some(rest.value + [16 * hi.value + lo.value]) else None
  }

  function Bytes(v: nat, n: nat): seq<nat> {
    if n == 0 then [] else Bytes(v / 256, n - 1) + [v % 256]
  }

  function Pow256(n: nat): nat { if n == 0 then 1 else 256 * Pow256(n - 1) }

  lemma {:induction false} DigitsRead(d: nat)
    requires d < 16
    ensures HexValue(Digit(d)) == Some(d)
  {
  }

  lemma {:induction false} Nibbles(v: nat)
    ensures v / 16 / 16 == v / 256 && 16 * (v / 16 % 16) + v % 16 == v % 256
  {
  }

  lemma {:induction false} TwoDigits(front: string, hi: char, lo: char)
    requires HexValue(hi).Some? && HexValue(lo).Some? && FromHex(front).Some?
    ensures FromHex((front + [hi]) + [lo]) ==
            Some(FromHex(front).value + [16 * HexValue(hi).value + HexValue(lo).value])
  {
    hide HexValue;
    var s := (front + [hi]) + [lo];
    assert s[..|s| - 2] == front;
  }

  lemma {:induction false} HexUnfolds(v: nat, width: nat)
    requires width >= 2
    ensures Hex(v, width) == (Hex(v / 256, width - 2) + [Digit(v / 16 % 16)]) + [Digit(v % 16)]
  {
    Nibbles(v);
    assert Hex(v, width) == Hex(v / 16, width - 1) + [Digit(v % 16)];
  }

  lemma {:induction false} Lower(v: nat, n: nat)
    requires n > 0 && v < Pow256(n)
    ensures v / 256 < Pow256(n - 1) && Bytes(v, n) == Bytes(v / 256, n - 1) + [v % 256]
  {
  }

  lemma {:induction false} HexNone(v: nat)
    requires v < Pow256(0)
    ensures FromHex(Hex(v, 0)) == Some(Bytes(v, 0))
  {
    assert v == 0;
    assert Hex(0, 0) == "";
  }

  lemma {:induction false} HexRoundTrip(v: nat, n: nat)
    requires v < Pow256(n)
    ensures FromHex(Hex(v, 2 * n)) == Some(Bytes(v, n))
  {
    hide FromHex, Digit, Hex, Bytes, Pow256;
    if n == 0 {
      HexNone(v);
    } else {
      Lower(v, n);
      HexRoundTrip(v / 256, n - 1);
      HexNext(v, 2 * n, Bytes(v / 256, n - 1));
    }
  }

  lemma {:induction false} HexNext(v: nat, width: nat, bytes: seq<nat>)
    requires width >= 2 && FromHex(Hex(v / 256, width - 2)) == Some(bytes)
    ensures FromHex(Hex(v, width)) == Some(bytes + [v % 256])
  {
    hide FromHex, Digit, Hex;
    HexUnfolds(v, width);
    Appends(Hex(v / 256, width - 2), v / 16 % 16, v % 16, bytes);
    Nibbles(v);
  }

  lemma {:induction false} Appends(front: string, hi: nat, lo: nat, bytes: seq<nat>)
    requires hi < 16 && lo < 16 && FromHex(front) == Some(bytes)
    ensures FromHex((front + [Digit(hi)]) + [Digit(lo)]) == Some(bytes + [16 * hi + lo])
  {
    DigitsRead(hi);
    DigitsRead(lo);
    TwoDigits(front, Digit(hi), Digit(lo));
    hide FromHex, Digit, HexValue;
  }

  const SIGNATURE: nat := 0x050003

  function BuildUDH(reference: nat, total: nat, index: nat): string {
    Hex(Or(Or(Or(SIGNATURE * 0x1000000, reference * 0x10000), total * 0x100), index), 12)
  }

  lemma {:induction false} Powers()
    ensures Pow2(8) == 0x100 && Pow2(16) == 0x10000 && Pow2(24) == 0x1000000
    ensures Pow256(6) == 0x1000000000000
  {
    assert Pow2(4) == 16;
    assert Pow2(8) == 0x100;
    assert Pow2(12) == 0x1000;
    assert Pow2(16) == 0x10000;
    assert Pow2(20) == 0x100000;
    assert Pow256(2) == 0x10000;
    assert Pow256(4) == 0x100000000;
  }

  /** The header's six bytes: its length, the 8-bit concatenation element with its
      length, and the three values. */
  lemma {:induction false} UDHBytes(reference: nat, total: nat, index: nat)
    requires reference < 256 && total < 256 && index < 256
    ensures FromHex(BuildUDH(reference, total, index)) == Some([5, 0, 3, reference, total, index])
  {
    Powers();
    OrAdds(SIGNATURE, reference * 0x10000, 24);
    var a := SIGNATURE * 0x100 + reference;
    OrAdds(a, total * 0x100, 16);
    var b := a * 0x100 + total;
    OrAdds(b, index, 8);
    var v := b * 0x100 + index;
    HexRoundTrip(v, 6);
    assert v / 256 == b && b / 256 == a && a / 256 == SIGNATURE;
    SixBytes(v, a, b);
  }

  lemma {:induction false} SixBytes(v: nat, a: nat, b: nat)
    requires v / 256 == b && b / 256 == a && a / 256 == SIGNATURE
    ensures Bytes(v, 6) == [5, 0, 3, a % 256, b % 256, v % 256]
  {
    assert SIGNATURE / 256 == 0x0500 && SIGNATURE % 256 == 3;
    assert Bytes(5, 1) == [5];
    assert Bytes(0x0500, 2) == Bytes(5, 1) + [0];
    assert Bytes(SIGNATURE, 3) == [5, 0, 3];
    assert Bytes(a, 4) == Bytes(SIGNATURE, 3) + [a % 256];
    assert Bytes(b, 5) == Bytes(a, 4) + [b % 256];
    assert Bytes(v, 6) == Bytes(b, 5) + [v % 256];
  }

  datatype Info = Info(ref: nat, total: nat, seqNo: nat)

  const IEI_8BIT: nat := 0x00
  const IEI_16BIT: nat := 0x08

  function ConcatElement(iei: nat, data: seq<nat>): Option<Info> {
    if iei == IEI_8BIT && |data| == 3 then Some(Info(data[0], data[1], data[2]))
    else if iei == IEI_16BIT && |data| == 4 then Some(Info(Or(data[0] * 0x100, data[1]), data[2], data[3]))
    else None
  }

  /** The first concatenation element decides, whether or not its values do. */
  function ParseElements(elems: seq<nat>): (r: Option<Info>)
    ensures r.Some? ==> 1 <= r.value.seqNo <= r.value.total && r.value.total in elems
    decreases |elems|
  {
    if |elems| < 2 || |elems| < 2 + elems[1] then None
    else
      var n := elems[1];
      var info := ConcatElement(elems[0], elems[2..2 + n]);
      if info.None? then ParseElements(elems[2 + n..])
      else if info.value.total == 0 || info.value.seqNo == 0 || info.value.seqNo > info.value.total then None
      else info
  }

  /** An information element of a header, and a list of them as octets. */
  datatype Element = Element(iei: nat, data: seq<nat>)

  function Encode(es: seq<Element>): seq<nat> {
    if es == [] then [] else [es[0].iei, |es[0].data|] + es[0].data + Encode(es[1..])
  }

  /** The first concatenation element of a list. */
  function FirstConcat(es: seq<Element>): Option<Info> {
    if es == [] then None
    else if ConcatElement(es[0].iei, es[0].data).Some? then ConcatElement(es[0].iei, es[0].data)
    else FirstConcat(es[1..])
  }

  /** Whatever elements a header holds, and whatever follows them, parsing answers by
      the first concatenation element, when its numbers make sense; without one it
      goes on with what follows. */
  lemma {:induction false} ParseFindsFirst(es: seq<Element>, tail: seq<nat>)
    ensures var first := FirstConcat(es);
            ParseElements(Encode(es) + tail) ==
            if first.None? then ParseElements(tail)
            else if 1 <= first.value.seqNo <= first.value.total then first
            else None
  {
    hide ConcatElement, ParseElements;
    if es == [] {
      assert Encode(es) + tail == tail;
    } else {
      ParseFindsFirst(es[1..], tail);
      var rest := Encode(es[1..]) + tail;
      assert Encode(es) + tail == [es[0].iei, |es[0].data|] + es[0].data + rest;
      ParseOne(es[0], rest);
    }
  }

  lemma {:induction false} ParseOne(e: Element, rest: seq<nat>)
    ensures var info := ConcatElement(e.iei, e.data);
            ParseElements([e.iei, |e.data|] + e.data + rest) ==
            if info.None? then ParseElements(rest)
            else if 1 <= info.value.seqNo <= info.value.total then info
            else None
  {
    hide ConcatElement;
    var all := [e.iei, |e.data|] + e.data + rest;
    assert all[2..2 + |e.data|] == e.data && all[2 + |e.data|..] == rest;
  }

  function ParseUDH(udh: string): (r: Option<Info>)
    ensures r.Some? ==> 1 <= r.value.seqNo <= r.value.total < 256
  {
    var raw := FromHex(udh);
    if raw.None? || |raw.value| == 0 || raw.value[0] > |raw.value| - 1 then None
    else ParseElements(raw.value[1..1 + raw.value[0]])
  }

  method ParseHeader(udh: string) returns (r: Option<Info>)
    ensures r == ParseUDH(udh)
  {
    var raw := FromHex(udh);
    if raw.None? || |raw.value| == 0 || raw.value[0] > |raw.value| - 1 { return None; }
    var elems: seq<nat> := raw.value[1..1 + raw.value[0]];
    while |elems| >= 2
      invariant ParseElements(elems) == ParseUDH(udh)
      decreases |elems|
    {
      var n := elems[1];
      if |elems| < 2 + n { return None; }
      var info := ConcatElement(elems[0], elems[2..2 + n]);
      elems := elems[2 + n..];
      if info.None? { continue; }
      if info.value.total == 0 || info.value.seqNo == 0 || info.value.seqNo > info.value.total { return None; }
      return info;
    }
    r := None;
  }

  /** What the builder writes is read back, and nothing else is made of it. */
  lemma {:induction false} HeaderRoundTrip(reference: nat, total: nat, index: nat)
    requires reference < 256 && total < 256 && index < 256
    ensures ParseUDH(BuildUDH(reference, total, index)) ==
            if 1 <= index <= total then Some(Info(reference, total, index)) else None
  {
    UDHBytes(reference, total, index);
    var raw := [5, 0, 3, reference, total, index];
    assert raw[1..6] == [0, 3, reference, total, index];
    assert raw[1..6][2..5] == [reference, total, index];
  }

  // ---------------------------------------------------------------- the builder

  function Build(text: string, reference: nat): (parts: seq<Part>)
    ensures |parts| == |Split(text, PartLength(text))|
    ensures forall i :: 0 <= i < |parts| ==> parts[i].text == Split(text, PartLength(text))[i]
  {
    var texts := Split(text, PartLength(text));
    var coding := if IsASCII(text) then Default else Unicode;
    seq(|texts|, i requires 0 <= i < |texts| =>
      Part(texts[i], coding, if |texts| > 1 then BuildUDH(reference, |texts|, i + 1) else ""))
  }

  lemma {:induction false} SplitNext(text: string, i: nat, length: nat)
    requires length > 0 && i < |text|
    ensures var j := if |text| - i > length then i + length else |text|;
            Split(text[i..], length) == [text[i..j]] + Split(text[j..], length)
  {
    if |text| - i > length {
      assert text[i..][length..] == text[i + length..] && text[i..][..length] == text[i..i + length];
    } else {
      assert text[i..|text|] == text[i..] && text[|text|..] == [];
    }
  }

  method SplitText(text: string, length: nat, coding: Coding) returns (parts: seq<Part>)
    requires length > 0
    ensures |parts| == |Split(text, length)|
    ensures forall k :: 0 <= k < |parts| ==> parts[k] == Part(Split(text, length)[k], coding, "")
  {
    hide Split;
    ghost var texts := Split(text, length);
    parts := [];
    ghost var done: seq<string> := [];
    var i := 0;
    assert text[0..] == text;
    while i < |text|
      invariant 0 <= i <= |text| && |done| == |parts|
      invariant texts == done + Split(text[i..], length)
      invariant forall k :: 0 <= k < |parts| ==> parts[k] == Part(done[k], coding, "")
    {
      SplitNext(text, i, length);
      var j := |text|;
      if j - i > length { j := i + length; }
      parts := parts + [Part(text[i..j], coding, "")];
      done := done + [text[i..j]];
      i := j;
    }
    SplitNone(length);
    assert text[i..] == [];
  }

  lemma {:induction false} SplitNone(length: nat)
    requires length > 0
    ensures Split([], length) == []
  {
  }

  method UpdateUDH(parts: seq<Part>, reference: nat) returns (r: seq<Part>)
    ensures |r| == |parts|
    ensures forall x :: 0 <= x < |r| ==> r[x] == parts[x].(udh := BuildUDH(reference, |parts|, x + 1))
  {
    hide BuildUDH;
    r := parts;
    for k := 0 to |parts|
      invariant |r| == |parts|
      invariant forall x :: 0 <= x < |r| ==>
        r[x] == if x < k then parts[x].(udh := BuildUDH(reference, |parts|, x + 1)) else parts[x]
    {
      r := r[k := r[k].(udh := BuildUDH(reference, |parts|, k + 1))];
    }
  }

  method Do(text: string, reference: nat) returns (parts: seq<Part>)
    ensures parts == Build(text, reference)
  {
    hide Split, BuildUDH, IsASCII;
    var coding, length := Default, 160;
    if !IsASCII(text) { coding, length := Unicode, 67; }
    parts := SplitText(text, length, coding);
    if |parts| > 1 { parts := UpdateUDH(parts, reference); }
  }
}
