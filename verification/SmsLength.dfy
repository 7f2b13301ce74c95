/** Whether a part, with its header, fits the 140 octets of user data an SMS carries
    (3GPP TS 23.040, section 9.2.3.24; the septets of 3GPP TS 23.038, section 6.2.1). */
module SmsLength {
  import opened SmsParts

  const USER_DATA_BITS: nat := 8 * 140
  const HEADER_BITS: nat := 8 * 6

  /** The extension table's characters take two septets. */
  function Septets(text: string): (n: nat)
    ensures n >= |text|
  {
    if text == [] then 0
    else Septets(text[..|text| - 1]) + if text[|text| - 1] in "^{}\\[~]|" then 2 else 1
  }

  /** Characters outside the basic plane take two code units. */
  function Units(text: string): (n: nat)
    ensures n >= |text|
  {
    if text == [] then 0
    else Units(text[..|text| - 1]) + if text[|text| - 1] as int < 0x10000 then 1 else 2
  }

  /** A header in front of septets is filled up to a septet boundary. */
  function Bits(p: Part): nat {
    var header := if p.udh == "" then 0 else HEADER_BITS;
    match p.coding
    case Default => (header + 6) / 7 * 7 + 7 * Septets(p.text)
    case Unicode => header + 16 * Units(p.text)
  }

  predicate Fits(p: Part) { Bits(p) <= USER_DATA_BITS }

  predicate AllFit(parts: seq<Part>) { forall i :: 0 <= i < |parts| ==> Fits(parts[i]) }

  /** How many septets or code units a part may hold. */
  lemma {:induction false} FitsMeans(p: Part)
    ensures Fits(p) <==>
            match p.coding
            case Default => Septets(p.text) <= (if p.udh == "" then 160 else 153)
            case Unicode => Units(p.text) <= (if p.udh == "" then 70 else 67)
  {
  }

  lemma {:induction false} HeaderIsText(reference: nat, total: nat, index: nat)
    ensures BuildUDH(reference, total, index) != ""
  {
    hide Or;
  }

  lemma {:induction false} PartIs(text: string, reference: nat, i: nat)
    requires i < |Build(text, reference)|
    ensures var (p, texts) := (Build(text, reference)[i], Split(text, PartLength(text)));
            && p.text == texts[i] && p.coding == (if IsASCII(text) then Default else Unicode)
            && (p.udh == "" <==> |text| <= PartLength(text))
  {
    hide IsASCII, BuildUDH;
    SplitJoins(text, PartLength(text));
    HeaderIsText(reference, |Split(text, PartLength(text))|, i + 1);
    hide Split;
  }

  /** A long ASCII text never fits: every part but the last is full, and its header
      takes seven of its 160 septets. */
  lemma {:induction false} LongASCIIOverflows(text: string, reference: nat)
    requires IsASCII(text) && |text| > 160
    ensures |Build(text, reference)| > 1
    ensures forall i :: 0 <= i < |Build(text, reference)| - 1 ==> !Fits(Build(text, reference)[i])
  {
    var texts := Split(text, 160);
    SplitJoins(text, 160);
    hide Split, Septets, Bits;
    forall i | 0 <= i < |Build(text, reference)| - 1 ensures !Fits(Build(text, reference)[i]) {
      PartIs(text, reference, i);
      assert |texts[i]| == 160;
      FitsMeans(Build(text, reference)[i]);
    }
  }

  predicate Basic(text: string) { forall i :: 0 <= i < |text| ==> text[i] as int < 0x10000 }

  lemma {:induction false} BasicUnits(text: string)
    requires Basic(text)
    ensures Units(text) == |text|
  {
    if text != [] { BasicUnits(text[..|text| - 1]); }
  }

  lemma {:induction false} ShortIsWhole(text: string, length: nat)
    requires 0 < |text| <= length
    ensures Split(text, length) == [text]
  {
  }

  /** Exactly which texts fit, part by part. An ASCII text fits when it takes 160
      septets or fewer, so never in more than one part. Another fits when no part
      holds more than 67 code units, or 70 when it is the only one. */
  lemma {:induction false} AllFitExactly(text: string, reference: nat)
    requires text != []
    ensures AllFit(Build(text, reference)) <==>
            if IsASCII(text) then Septets(text) <= 160
            else if |text| <= 67 then Units(text) <= 70
            else forall i :: 0 <= i < |Split(text, 67)| ==> Units(Split(text, 67)[i]) <= 67
  {
    var (parts, length) := (Build(text, reference), PartLength(text));
    var texts := Split(text, length);
    SplitJoins(text, length);
    if |text| <= length { ShortIsWhole(text, length); }
    if IsASCII(text) && |text| > 160 { LongASCIIOverflows(text, reference); }
    forall i | 0 <= i < |parts| ensures
      Fits(parts[i]) <==>
        if IsASCII(text) then Septets(texts[i]) <= (if |text| <= length then 160 else 153)
        else Units(texts[i]) <= (if |text| <= length then 70 else 67)
    {
      hide Split, Bits, IsASCII;
      PartIs(text, reference, i);
      FitsMeans(parts[i]);
    }
    hide Split, Bits, IsASCII, Septets, Units, Build;
    if IsASCII(text) && |text| > 160 { assert !Fits(parts[0]); }
    assert |parts| == |texts|;
    if |text| <= length { assert texts == [text]; }
  }

  /** So a text beyond ASCII but within the basic plane always fits. */
  lemma {:induction false} BasicPlaneFits(text: string, reference: nat)
    requires text != [] && !IsASCII(text) && Basic(text)
    ensures AllFit(Build(text, reference))
  {
    hide AllFit, Build, Units, Split, IsASCII, Basic;
    AllFitExactly(text, reference);
    BasicUnits(text);
    SplitJoins(text, 67);
    forall i | 0 <= i < |Split(text, 67)| ensures Units(Split(text, 67)[i]) <= 67 {
      PartBasic(text, 67, i);
      BasicUnits(Split(text, 67)[i]);
    }
  }

  lemma {:induction false} PartBasic(text: string, length: nat, i: nat)
    requires length > 0 && i < |Split(text, length)| && Basic(text)
    ensures Basic(Split(text, length)[i])
    decreases |text|
  {
    if |text| > length && i > 0 { PartBasic(text[length..], length, i - 1); }
  }
}
