/**
 * The order payload and its text encoding.
 *
 * The producer encodes an order with `json.Marshal` and the consumer decodes
 * it with `json.Unmarshal`, ignoring both errors. The model does not
 * reproduce the JSON library: it fixes one lossless, JSON-shaped encoding
 * (the object `{"ID":"…","Item":"…","Amount":n}`, escaping only `"` and `\`)
 * and proves the one property the consumer relies on, that decoding an
 * encoded order gives the order back.
 */
module OrderCodec {
  import opened Wrappers

  /** An order event: producer-assigned id, item name and quantity. */
  datatype Order = Order(id: string, item: string, amount: int)

  /** The value of a freshly declared `var o order.Order`: what the handler
      receives when the payload does not decode. */
  const ZeroOrder := Order("", "", 0)

  const IdKey := "{\"ID\":\""
  const ItemKey := ",\"Item\":\""
  const AmountKey := ",\"Amount\":"

  // ---------------------------------------------------------------------
  // Quoted strings

  function EscapeChar(c: char): string {
    if c == '"' || c == '\\' then ['\\', c] else [c]
  }

  /** The body of a quoted string holding `s`. */
  function Escape(s: string): string {
    if s == [] then [] else EscapeChar(s[0]) + Escape(s[1..])
  }

  /** Reads a quoted-string body up to its closing quote; returns the
      unescaped text and what follows the quote. */
  function ReadQuoted(s: string): Option<(string, string)>
    decreases |s|
  {
    if s == [] then None
    else if s[0] == '"' then Some(("", s[1..]))
    else if s[0] == '\\' then
      if |s| < 2 || !(s[1] == '"' || s[1] == '\\') then None
      else match ReadQuoted(s[2..])
        case None => None
        case Some(p) => Some(([s[1]] + p.0, p.1))
    else match ReadQuoted(s[1..])
      case None => None
      case Some(p) => Some(([s[0]] + p.0, p.1))
  }

  lemma {:induction false} ReadQuotedEscape(t: string, rest: string)
    ensures ReadQuoted(Escape(t) + ['"'] + rest) == Some((t, rest))
    decreases |t|
  {
    var s := Escape(t) + ['"'] + rest;
    if t == [] {
      assert s == ['"'] + rest;
      assert s[1..] == rest;
    } else {
      var tail := Escape(t[1..]) + ['"'] + rest;
      assert s == EscapeChar(t[0]) + tail;
      ReadQuotedEscape(t[1..], rest);
      assert [t[0]] + t[1..] == t;
      if t[0] == '"' || t[0] == '\\' {
        assert s[2..] == tail;
      } else {
        assert s[1..] == tail;
      }
    }
  }

  // ---------------------------------------------------------------------
  // Decimal numbers

  predicate IsDigit(c: char) {
    '0' <= c <= '9'
  }

  predicate IsDigits(s: string) {
    forall i :: 0 <= i < |s| ==> IsDigit(s[i])
  }

  function DigitChar(d: nat): (c: char)
    requires d < 10
    ensures IsDigit(c)
  {
    ('0' as int + d) as char
  }

  function DigitValue(c: char): nat
    requires IsDigit(c)
  {
    c as int - '0' as int
  }

  /** The shortest decimal numeral of `n`. */
  function NatToString(n: nat): string
    decreases n
  {
    if n < 10 then [DigitChar(n)] else NatToString(n / 10) + [DigitChar(n % 10)]
  }

  /** The value of a decimal numeral (most significant digit first). */
  function ParseNat(s: string): nat
    requires IsDigits(s)
    decreases |s|
  {
    if s == [] then 0 else 10 * ParseNat(s[..|s| - 1]) + DigitValue(s[|s| - 1])
  }

  lemma {:induction false} NatRoundTrip(n: nat)
    ensures NatToString(n) != [] && IsDigits(NatToString(n))
    ensures ParseNat(NatToString(n)) == n
    decreases n
  {
    if n >= 10 {
      NatRoundTrip(n / 10);
      var s := NatToString(n);
      var prefix := NatToString(n / 10);
      assert s == prefix + [DigitChar(n % 10)];
      assert s[..|s| - 1] == prefix;
      assert DigitValue(s[|s| - 1]) == n % 10;
    }
  }

  function IntToString(i: int): string {
    if i < 0 then "-" + NatToString(-i) else NatToString(i)
  }

  /** An optional minus sign followed by at least one digit. */
  function ParseInt(s: string): Option<int> {
    if s != [] && s[0] == '-' then
      if |s| > 1 && IsDigits(s[1..]) then Some(0 - ParseNat(s[1..])) else None
    else if s != [] && IsDigits(s) then Some(ParseNat(s))
    else None
  }

  lemma IntRoundTrip(i: int)
    ensures ParseInt(IntToString(i)) == Some(i)
  {
    if i < 0 {
      NegRoundTrip(-i);
    } else {
      NatRoundTrip(i);
      var s := NatToString(i);
      assert IsDigit(s[0]);
      assert ParseInt(s) == Some(ParseNat(s));
    }
  }

  lemma NegRoundTrip(n: nat)
    requires n > 0
    ensures ParseInt("-" + NatToString(n)) == Some(0 - n)
  {
    NatRoundTrip(n);
    var digits := NatToString(n);
    var s := "-" + digits;
    assert s[0] == '-' && |s| > 1;
    assert s[1..] == digits;
  }

  // ---------------------------------------------------------------------
  // Orders

  /** The payload `json.Marshal(order)` stands for. */
  function Encode(o: Order): string {
    IdKey + (Escape(o.id) + "\"" + ItemPart(o))
  }

  function ItemPart(o: Order): string {
    ItemKey + (Escape(o.item) + "\"" + AmountPart(o.amount))
  }

  function AmountPart(amount: int): string {
    AmountKey + (IntToString(amount) + "}")
  }

  /** Parses a payload; `None` on any malformed input. */
  function Decode(s: string): Option<Order> {
    if !(IdKey <= s) then None
    else match ReadQuoted(s[|IdKey|..])
      case None => None
      case Some(p1) =>
        var r1 := p1.1;
        if !(ItemKey <= r1) then None
        else match ReadQuoted(r1[|ItemKey|..])
          case None => None
          case Some(p2) =>
            var r2 := p2.1;
            if !(AmountKey <= r2) || |r2| == |AmountKey| || r2[|r2| - 1] != '}' then None
            else match ParseInt(r2[|AmountKey|..|r2| - 1])
              case None => None
              case Some(amount) => Some(Order(p1.0, p2.0, amount))
  }

  /** What `var o order.Order; _ = json.Unmarshal([]byte(raw), &o)` leaves in
      `o`: the decoded order, or the zero order when decoding fails. */
  function Unmarshal(raw: string): Order {
    match Decode(raw)
    case Some(o) => o
    case None => ZeroOrder
  }

  lemma AmountPartParses(amount: int)
    ensures var r := AmountPart(amount);
      && AmountKey <= r && |r| != |AmountKey| && r[|r| - 1] == '}'
      && ParseInt(r[|AmountKey|..|r| - 1]) == Some(amount)
  {
    var r := AmountPart(amount);
    assert r[|AmountKey|..|r| - 1] == IntToString(amount);
    IntRoundTrip(amount);
  }

  lemma ItemPartReads(o: Order)
    ensures var r := ItemPart(o);
      && ItemKey <= r
      && ReadQuoted(r[|ItemKey|..]) == Some((o.item, AmountPart(o.amount)))
  {
    var r := ItemPart(o);
    assert r[|ItemKey|..] == Escape(o.item) + ['"'] + AmountPart(o.amount);
    ReadQuotedEscape(o.item, AmountPart(o.amount));
  }

  lemma EncodeReads(o: Order)
    ensures var s := Encode(o);
      && IdKey <= s
      && ReadQuoted(s[|IdKey|..]) == Some((o.id, ItemPart(o)))
  {
    var s := Encode(o);
    assert s[|IdKey|..] == Escape(o.id) + ['"'] + ItemPart(o);
    ReadQuotedEscape(o.id, ItemPart(o));
  }

  /** Encoding is lossless: decoding an encoded order gives it back. */
  lemma DecodeEncode(o: Order)
    ensures Decode(Encode(o)) == Some(o)
  {
    EncodeReads(o);
    ItemPartReads(o);
    AmountPartParses(o.amount);
  }

  /** The consumer's view of a produced payload is the produced order. */
  lemma UnmarshalEncode(o: Order)
    ensures Unmarshal(Encode(o)) == o
  {
    DecodeEncode(o);
  }
}
