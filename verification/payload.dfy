/** The request payload of the scrape script: the CBOR bytes turned into a list of
    byte values (`cbor_to_list`) and rendered as a decimal comma-list for the form
    field. The CBOR encoding itself is a foreign library; its output is any byte
    sequence here. */
module Payload {
  import opened Wrappers
  import opened Numerals
  import opened PyText

  newtype byte = x: int | 0 <= x < 256

  /** Two lower-case hex digits of one byte, as `bytes.hex()` writes it. */
  function ByteHex(x: byte): (h: string)
    ensures |h| == 2 && AllDigitsIn(h, 16)
    ensures ParseRadix(h, 16) == Some(x as nat)
  {
    var hi := x as nat / 16;
    var lo := x as nat % 16;
    DigitRoundTrip(hi, false);
    DigitRoundTrip(lo, false);
    var h := [DigitChar(hi, false), DigitChar(lo, false)];
    assert h[..1] == [DigitChar(hi, false)];
    assert h[..1][..0] == [];
    assert DigitsValue(h[..1], 16) == hi;
    assert DigitsValue(h, 16) == hi * 16 + lo;
    h
  }

  /** `bytes.hex()`: every byte as two hex digits, in order. */
  function HexOf(b: seq<byte>): (h: string)
    ensures |h| == 2 * |b| && AllDigitsIn(h, 16)
  {
    if |b| == 0 then "" else ByteHex(b[0]) + HexOf(b[1..])
  }

  /** `[int(h[i:i+2], 16) for i in range(0, len(h), 2)]`. */
  function HexPairsToInts(h: string): seq<nat>
    requires |h| % 2 == 0 && AllDigitsIn(h, 16)
  {
    if |h| == 0 then []
    else
      assert AllDigitsIn(h[2..], 16);
      [ParseRadix(h[..2], 16).value] + HexPairsToInts(h[2..])
  }

  lemma {:induction false} HexPairsOfHex(b: seq<byte>)
    ensures |HexPairsToInts(HexOf(b))| == |b|
    ensures forall k :: 0 <= k < |b| ==> HexPairsToInts(HexOf(b))[k] == b[k] as nat
  {
    if |b| > 0 {
      var h := HexOf(b);
      assert h == ByteHex(b[0]) + HexOf(b[1..]);
      assert h[..2] == ByteHex(b[0]);
      assert h[2..] == HexOf(b[1..]);
      HexPairsOfHex(b[1..]);
    }
  }

  /** `cbor_to_list`: one integer per input byte, equal to that byte. */
  function CborToList(b: seq<byte>): (r: seq<nat>)
    ensures |r| == |b|
    ensures forall k :: 0 <= k < |b| ==> r[k] == b[k] as nat
  {
    HexPairsOfHex(b);
    HexPairsToInts(HexOf(b))
  }

  /** `bytes(xs)`: fails (Python raises `ValueError`) when a value is not a byte. */
  function BytesOf(xs: seq<nat>): (r: Option<seq<byte>>)
    ensures r.Some? <==> forall k :: 0 <= k < |xs| ==> xs[k] < 256
    ensures r.Some? ==> |r.value| == |xs| && forall k :: 0 <= k < |xs| ==> r.value[k] as nat == xs[k]
  {
    if forall k :: 0 <= k < |xs| ==> xs[k] < 256
    then Some(seq(|xs|, k requires 0 <= k < |xs| => xs[k] as byte))
    else None
  }

  /** Turning the list back into bytes reproduces the payload exactly. */
  lemma CborListRoundTrip(b: seq<byte>)
    ensures BytesOf(CborToList(b)) == Some(b)
  {
    var r := BytesOf(CborToList(b));
    assert r.Some?;
    assert r.value == b;
  }

  function DecimalPieces(xs: seq<nat>): (ps: seq<string>)
    ensures |ps| == |xs|
    ensures forall k :: 0 <= k < |xs| ==> ps[k] == Decimal(xs[k])
  {
    seq(|xs|, k requires 0 <= k < |xs| => Decimal(xs[k]))
  }

  /** Reads a comma-list back: every piece must be a decimal numeral. */
  function ParseAll(pieces: seq<string>): (r: Option<seq<nat>>)
    ensures r.Some? <==> forall k :: 0 <= k < |pieces| ==> ParseRadix(pieces[k], 10).Some?
    ensures r.Some? ==> |r.value| == |pieces|
    ensures r.Some? ==> forall k :: 0 <= k < |pieces| ==> Some(r.value[k]) == ParseRadix(pieces[k], 10)
  {
    if |pieces| == 0 then Some([])
    else
      match ParseRadix(pieces[0], 10)
      case None => None
      case Some(v) =>
        match ParseAll(pieces[1..])
        case None => None
        case Some(vs) => Some([v] + vs)
  }

  /** `[int(p) for p in text.split(",")]`. */
  function ParsePayloadText(text: string): Option<seq<nat>>
  {
    ParseAll(Split(text, ','))
  }

  lemma {:induction false} JoinedDigitsCharset(ps: seq<string>)
    requires forall k :: 0 <= k < |ps| ==> AllDecimalDigits(ps[k])
    ensures forall j :: 0 <= j < |Join(",", ps)| ==>
              IsDecimalDigit(Join(",", ps)[j]) || Join(",", ps)[j] == ','
  {
    if |ps| > 1 {
      JoinedDigitsCharset(ps[1..]);
      assert Join(",", ps) == ps[0] + "," + Join(",", ps[1..]);
    }
  }

  /** Reading back the comma-list of a non-empty list of numbers gives the list. */
  lemma DecimalListRoundTrip(xs: seq<nat>)
    requires |xs| > 0
    ensures ParsePayloadText(Join(",", DecimalPieces(xs))) == Some(xs)
  {
    var ps := DecimalPieces(xs);
    forall k | 0 <= k < |ps|
      ensures ',' !in ps[k]
    {
      assert !IsDecimalDigit(',');
    }
    SplitJoin(ps, ',');
    var r := ParsePayloadText(Join(",", ps));
    assert r.Some?;
    assert r.value == xs;
  }

  /** `",".join(map(str, cbor_to_list(payload)))`: only ASCII digits and commas,
      and for a non-empty payload, splitting on ',' and parsing each piece as
      decimal gives back the byte list and from it the payload bytes. */
  function PayloadText(b: seq<byte>): (text: string)
    ensures forall j :: 0 <= j < |text| ==> IsDecimalDigit(text[j]) || text[j] == ','
    ensures |b| > 0 ==> ParsePayloadText(text) == Some(CborToList(b))
    ensures |b| > 0 ==> BytesOf(ParsePayloadText(text).value) == Some(b)
    ensures |b| == 0 ==> text == ""
  {
    var ps := DecimalPieces(CborToList(b));
    JoinedDigitsCharset(ps);
    if |b| > 0 then DecimalListRoundTrip(CborToList(b)); CborListRoundTrip(b); Join(",", ps)
    else Join(",", ps)
  }

  /** An empty payload does not round-trip: `"".split(",")` is `[""]` and `int("")`
      fails. (The script's CBOR map is never empty.) */
  lemma EmptyPayloadTextDoesNotParse()
    ensures PayloadText([]) == ""
    ensures ParsePayloadText(PayloadText([])) == None
  {
    assert DecimalPieces(CborToList([])) == [];
    assert Split("", ',') == [""];
  }
}
