/** The text form of an order collection: what the store writes under the
    orders key, keeps in its history and reads back at start-up.

    The encoding is JSON-like and positional: a collection is a bracketed list
    of orders, an order a braced list of its sixteen fields in declaration
    order, each field followed by a comma. Text fields are quoted with
    backslash escapes, numbers are written in decimal, the photo list is a
    bracketed list of quoted texts. */
module Codec {
  import opened Types
  import opened Text

  /** One field of an order, as it appears in the text. */
  datatype Field = FText(text: string) | FNumber(number: int) | FList(items: seq<string>)

  /** Backslash before every quote and backslash. */
  function Escape(s: string): string
  {
    if s == [] then []
    else (if s[0] == '"' || s[0] == '\\' then ['\\', s[0]] else [s[0]]) + Escape(s[1..])
  }

  function EncodeText(s: string): string
  {
    "\"" + Escape(s) + "\""
  }

  /** Reads a quoted text after its opening quote: its value and what follows the closing quote. */
  function ParseTextBody(s: string): (r: Option<(string, string)>)
    ensures r.Some? ==> |r.value.1| < |s|
  {
    if s == [] then None
    else if s[0] == '"' then Some(([], s[1..]))
    else if s[0] == '\\' then
      if |s| < 2 then None
      else match ParseTextBody(s[2..])
        case Some((t, rest)) => Some(([s[1]] + t, rest))
        case None => None
    else match ParseTextBody(s[1..])
      case Some((t, rest)) => Some(([s[0]] + t, rest))
      case None => None
  }

  lemma {:induction false} TextBodyRoundTrip(x: string, rest: string)
    ensures ParseTextBody(Escape(x) + "\"" + rest) == Some((x, rest))
  {
    if x == [] {
      assert Escape(x) + "\"" + rest == ['"'] + rest;
    } else {
      var head := if x[0] == '"' || x[0] == '\\' then ['\\', x[0]] else [x[0]];
      var tail := Escape(x[1..]) + "\"" + rest;
      assert Escape(x) + "\"" + rest == head + tail;
      TextBodyRoundTrip(x[1..], rest);
      assert [x[0]] + x[1..] == x;
    }
  }

  /** The quoted texts of a list, each followed by a comma. */
  function EncodeItems(xs: seq<string>): string
  {
    if xs == [] then [] else EncodeText(xs[0]) + "," + EncodeItems(xs[1..])
  }

  /** Reads list items up to and including the closing bracket. */
  function ParseItems(s: string): (r: Option<(seq<string>, string)>)
    ensures r.Some? ==> |r.value.1| < |s|
    decreases |s|
  {
    if s == [] then None
    else if s[0] == ']' then Some(([], s[1..]))
    else if s[0] == '"' then
      var first := ParseTextBody(s[1..]);
      if first.None? then None
      else
        var (x, r1) := first.value;
        if r1 == [] || r1[0] != ',' then None
        else
          var others := ParseItems(r1[1..]);
          if others.None? then None
          else Some(([x] + others.value.0, others.value.1))
    else None
  }

  /** One step of the list reader: a quoted item, a comma, then the remaining items. */
  lemma ItemsStep(s: string, x: string, c: string, others: seq<string>, rest: string)
    requires s != [] && s[0] == '"' && ParseTextBody(s[1..]) == Some((x, c))
    requires c != [] && c[0] == ',' && ParseItems(c[1..]) == Some((others, rest))
    ensures ParseItems(s) == Some(([x] + others, rest))
  {
  }

  lemma {:induction false} ItemsRoundTrip(xs: seq<string>, rest: string)
    ensures ParseItems(EncodeItems(xs) + "]" + rest) == Some((xs, rest))
  {
    if xs == [] {
      assert EncodeItems(xs) + "]" + rest == [']'] + rest;
    } else {
      var x := xs[0];
      var tail := EncodeItems(xs[1..]) + "]" + rest;
      var c := "," + tail;
      var s := EncodeItems(xs) + "]" + rest;
      assert s[1..] == Escape(x) + "\"" + c && s[0] == '"' by {
        assert s == "\"" + (Escape(x) + "\"" + c);
      }
      TextBodyRoundTrip(x, c);
      assert c[1..] == tail;
      ItemsRoundTrip(xs[1..], rest);
      ItemsStep(s, x, c, xs[1..], rest);
      assert [x] + xs[1..] == xs;
    }
  }

  function EncodeField(f: Field): string
  {
    match f
    case FText(t) => EncodeText(t)
    case FNumber(n) => IntToText(n)
    case FList(xs) => "[" + EncodeItems(xs) + "]"
  }

  /** Reads one field; its first character says which kind it is. */
  function ParseField(s: string): (r: Option<(Field, string)>)
    ensures r.Some? ==> |r.value.1| < |s|
  {
    if s == [] then None
    else if s[0] == '"' then
      match ParseTextBody(s[1..])
      case Some((t, rest)) => Some((FText(t), rest))
      case None => None
    else if s[0] == '[' then
      match ParseItems(s[1..])
      case Some((xs, rest)) => Some((FList(xs), rest))
      case None => None
    else
      match ParseIntToken(s)
      case Some((n, rest)) => Some((FNumber(n), rest))
      case None => None
  }

  lemma TextFieldRoundTrip(t: string, rest: string)
    ensures ParseField(EncodeText(t) + rest) == Some((FText(t), rest))
  {
    var s := EncodeText(t) + rest;
    assert s[0] == '"';
    assert s[1..] == Escape(t) + "\"" + rest;
    TextBodyRoundTrip(t, rest);
  }

  lemma ListFieldRoundTrip(xs: seq<string>, rest: string)
    ensures ParseField("[" + EncodeItems(xs) + "]" + rest) == Some((FList(xs), rest))
  {
    var s := "[" + EncodeItems(xs) + "]" + rest;
    assert s[0] == '[';
    assert s[1..] == EncodeItems(xs) + "]" + rest;
    ItemsRoundTrip(xs, rest);
  }

  lemma NumberFieldRoundTrip(n: int, rest: string)
    requires rest == [] || !IsDigit(rest[0])
    ensures ParseField(IntToText(n) + rest) == Some((FNumber(n), rest))
  {
    var s := IntToText(n) + rest;
    ParseIntTokenRoundTrip(n, rest);
    assert s[0] == IntToText(n)[0];
    if n >= 0 {
      assert IsDigit(s[0]);
    }
    assert s[0] != '"' && s[0] != '[';
  }

  lemma FieldRoundTrip(f: Field, rest: string)
    ensures ParseField(EncodeField(f) + "," + rest) == Some((f, "," + rest))
  {
    assert EncodeField(f) + "," + rest == EncodeField(f) + ("," + rest);
    match f
    case FText(t) => TextFieldRoundTrip(t, "," + rest);
    case FList(xs) => ListFieldRoundTrip(xs, "," + rest);
    case FNumber(n) => NumberFieldRoundTrip(n, "," + rest);
  }

  /** The fields of an order, each followed by a comma. */
  function EncodeFields(fs: seq<Field>): string
  {
    if fs == [] then [] else EncodeField(fs[0]) + "," + EncodeFields(fs[1..])
  }

  /** Reads comma-terminated fields up to and including the closing brace. */
  function ParseFields(s: string): (r: Option<(seq<Field>, string)>)
    ensures r.Some? ==> |r.value.1| < |s|
    decreases |s|
  {
    if s == [] then None
    else if s[0] == '}' then Some(([], s[1..]))
    else
      var first := ParseField(s);
      if first.None? then None
      else
        var (f, r1) := first.value;
        if r1 == [] || r1[0] != ',' then None
        else
          var others := ParseFields(r1[1..]);
          if others.None? then None
          else Some(([f] + others.value.0, others.value.1))
  }

  lemma {:induction false} FieldsRoundTrip(fs: seq<Field>, rest: string)
    ensures ParseFields(EncodeFields(fs) + "}" + rest) == Some((fs, rest))
  {
    if fs == [] {
      assert EncodeFields(fs) + "}" + rest == ['}'] + rest;
    } else {
      var tail := EncodeFields(fs[1..]) + "}" + rest;
      var s := EncodeFields(fs) + "}" + rest;
      assert s == EncodeField(fs[0]) + "," + tail;
      FieldRoundTrip(fs[0], tail);
      var e := EncodeField(fs[0]);
      assert s[0] == e[0];
      assert e[0] != '}' by {
        match fs[0]
        case FText(_) =>
        case FList(_) =>
        case FNumber(n) => assert e[0] == '-' || IsDigit(e[0]);
      }
      assert ("," + tail)[1..] == tail;
      FieldsRoundTrip(fs[1..], rest);
      assert [fs[0]] + fs[1..] == fs;
    }
  }

  /** The sixteen fields of an order in declaration order. */
  function OrderFields(o: Order): (fs: seq<Field>)
    ensures |fs| == 16
  {
    [FText(o.id), FText(o.client), FText(TransportName(o.transport)),
     FNumber(o.realPrice), FNumber(o.clientPrice), FNumber(o.profit),
     FText(o.dateOrder), FText(o.dateArrival), FText(o.datePickup), FText(o.dateDelivery),
     FText(StatusName(o.status)), FList(o.photos), FNumber(o.rating),
     FText(o.review), FText(o.suggestions), FNumber(o.createdAt)]
  }

  /** Rebuilds an order from its fields; None when the kinds or the names do not fit. */
  function FieldsToOrder(fs: seq<Field>): (r: Option<Order>)
    ensures r.Some? ==> OrderFields(r.value) == fs
  {
    if |fs| != 16 then None
    else if !(fs[0].FText? && fs[1].FText? && fs[2].FText? && fs[3].FNumber? && fs[4].FNumber?
              && fs[5].FNumber? && fs[6].FText? && fs[7].FText? && fs[8].FText? && fs[9].FText?
              && fs[10].FText? && fs[11].FList? && fs[12].FNumber? && fs[13].FText?
              && fs[14].FText? && fs[15].FNumber?) then None
    else
      match (TransportFromName(fs[2].text), StatusFromName(fs[10].text))
      case (Some(t), Some(st)) =>
        Some(Order(fs[0].text, fs[1].text, t, fs[3].number, fs[4].number, fs[5].number,
                   fs[6].text, fs[7].text, fs[8].text, fs[9].text, st, fs[11].items,
                   fs[12].number, fs[13].text, fs[14].text, fs[15].number))
      case _ => None
  }

  lemma FieldsOfOrder(o: Order)
    ensures FieldsToOrder(OrderFields(o)) == Some(o)
  {
  }

  function EncodeOrder(o: Order): string
  {
    "{" + EncodeFields(OrderFields(o)) + "}"
  }

  /** Reads one braced order and what follows it. */
  function ParseOrder(s: string): (r: Option<(Order, string)>)
    ensures r.Some? ==> |r.value.1| < |s|
  {
    if s == [] || s[0] != '{' then None
    else
      var fields := ParseFields(s[1..]);
      if fields.None? then None
      else
        var o := FieldsToOrder(fields.value.0);
        if o.None? then None else Some((o.value, fields.value.1))
  }

  lemma ParseOrderOfFields(fs: seq<Field>, rest: string)
    requires FieldsToOrder(fs).Some?
    ensures ParseOrder("{" + EncodeFields(fs) + "}" + rest) == Some((FieldsToOrder(fs).value, rest))
  {
    var s := "{" + EncodeFields(fs) + "}" + rest;
    assert s[1..] == EncodeFields(fs) + "}" + rest;
    FieldsRoundTrip(fs, rest);
  }

  lemma OrderRoundTrip(o: Order, rest: string)
    ensures ParseOrder(EncodeOrder(o) + rest) == Some((o, rest))
  {
    FieldsOfOrder(o);
    ParseOrderOfFields(OrderFields(o), rest);
  }

  /** The orders of a collection, each followed by a comma. */
  function EncodeOrderList(os: seq<Order>): string
  {
    if os == [] then [] else EncodeOrder(os[0]) + "," + EncodeOrderList(os[1..])
  }

  /** Reads comma-terminated orders up to and including the closing bracket. */
  function ParseOrderList(s: string): (r: Option<(seq<Order>, string)>)
    ensures r.Some? ==> |r.value.1| < |s|
    decreases |s|
  {
    if s == [] then None
    else if s[0] == ']' then Some(([], s[1..]))
    else
      var first := ParseOrder(s);
      if first.None? then None
      else
        var (o, r1) := first.value;
        if r1 == [] || r1[0] != ',' then None
        else
          var others := ParseOrderList(r1[1..]);
          if others.None? then None
          else Some(([o] + others.value.0, others.value.1))
  }

  lemma {:induction false} OrderListRoundTrip(os: seq<Order>, rest: string)
    ensures ParseOrderList(EncodeOrderList(os) + "]" + rest) == Some((os, rest))
  {
    if os == [] {
      assert EncodeOrderList(os) + "]" + rest == [']'] + rest;
    } else {
      var tail := EncodeOrderList(os[1..]) + "]" + rest;
      var s := EncodeOrderList(os) + "]" + rest;
      assert s == EncodeOrder(os[0]) + ("," + tail);
      assert s[0] == '{';
      OrderRoundTrip(os[0], "," + tail);
      assert ("," + tail)[1..] == tail;
      OrderListRoundTrip(os[1..], rest);
      assert [os[0]] + os[1..] == os;
    }
  }

  /** The stored text of an order collection, standing in for JSON.stringify: the
      encoding differs from JSON text, but it is written and read back the same way. */
  function Encode(os: seq<Order>): (text: string)
    ensures text != [] && text[0] == '['
  {
    "[" + EncodeOrderList(os) + "]"
  }

  /** Reads a stored collection back, standing in for JSON.parse: None for text that is
      not the encoding of one, where JSON.parse would throw. */
  function Decode(text: string): Option<seq<Order>>
  {
    if text == [] || text[0] != '[' then None
    else
      match ParseOrderList(text[1..])
      case Some((os, rest)) => if rest == [] then Some(os) else None
      case None => None
  }

  /** Every collection, the empty one included, reads back exactly as it was written. */
  lemma DecodeEncode(os: seq<Order>)
    ensures Decode(Encode(os)) == Some(os)
  {
    var text := Encode(os);
    assert text[1..] == EncodeOrderList(os) + "]" + [];
    OrderListRoundTrip(os, []);
  }

  /** Two collections with the same text are the same collection. */
  lemma EncodeInjective(a: seq<Order>, b: seq<Order>)
    requires Encode(a) == Encode(b)
    ensures a == b
  {
    DecodeEncode(a);
    DecodeEncode(b);
  }
}
