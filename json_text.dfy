/** The text `json.dumps` produces, with its default separators (", " between items,
    ": " between a key and its value), for the two default tables: objects whose
    values are arrays of strings, or integers and `null`.

    Beside each writer stands a reader, proved to invert the writer on the writer's
    output: the round-trip lemmas say the stored text reads back as the table it was
    written from. */
module JsonText {
  import opened Outcomes

  // ---------------------------------------------------------------- strings

  /** The escaped form: characters other than `"` and `\`, or the two-character
      escapes `\"` and `\\`. */
  predicate EscapedForm(r: string)
  {
    if r == [] then true
    else if r[0] == '\\' then |r| >= 2 && (r[1] == '"' || r[1] == '\\') && EscapedForm(r[2..])
    else r[0] != '"' && EscapedForm(r[1..])
  }

  /** A string's characters with `"` and `\` escaped. */
  function Escaped(s: string): (r: string)
    ensures |r| >= |s|
    ensures EscapedForm(r)
  {
    if s == [] then ""
    else
      var head := if s[0] == '"' then "\\\"" else if s[0] == '\\' then "\\\\" else [s[0]];
      var rest := Escaped(s[1..]);
      assert (head + rest)[|head|..] == rest;
      head + rest
  }

  /** A JSON string literal. */
  function Quoted(s: string): (r: string)
    ensures |r| >= 2 && r[0] == '"' && r[|r| - 1] == '"'
  {
    "\"" + Escaped(s) + "\""
  }

  /** The characters of a string literal after its opening quote, up to the first
      unescaped `"`, and the text after that quote. Only the escapes `\"` and `\\` are
      read; any other escape is refused. */
  function ReadChars(t: string): Option<(string, string)>
  {
    if t == [] then None
    else if t[0] == '"' then Some(("", t[1..]))
    else if t[0] == '\\' then
      if |t| < 2 || (t[1] != '"' && t[1] != '\\') then None
      else match ReadChars(t[2..])
        case None => None
        case Some(p) => Some(([t[1]] + p.0, p.1))
    else match ReadChars(t[1..])
      case None => None
      case Some(p) => Some(([t[0]] + p.0, p.1))
  }

  /** A string literal at the start of `t`, and the text after it. */
  function ReadQuoted(t: string): Option<(string, string)>
  {
    if t == [] || t[0] != '"' then None else ReadChars(t[1..])
  }

  /** The closing quote of a literal is the one `Quoted` wrote: whatever follows, the
      literal reads back as the original string. */
  lemma {:induction false} ReadCharsEscaped(s: string, tail: string)
    ensures ReadChars(Escaped(s) + "\"" + tail) == Some((s, tail))
  {
    if s == [] {
      assert Escaped(s) + "\"" + tail == "\"" + tail;
    } else {
      var more := Escaped(s[1..]) + "\"" + tail;
      ReadCharsEscaped(s[1..], tail);
      EscapedText(s, tail);
      if s[0] == '"' || s[0] == '\\' {
        ReadCharsEscape(s[0], more, s[1..], tail);
      } else {
        ReadCharsPlain(s[0], more, s[1..], tail);
      }
      assert s == [s[0]] + s[1..];
    }
  }

  /** The escaped text of a non-empty string, with a closing quote and more text. */
  lemma EscapedText(s: string, tail: string)
    requires s != []
    ensures var more := Escaped(s[1..]) + "\"" + tail;
      Escaped(s) + "\"" + tail
        == (if s[0] == '"' || s[0] == '\\' then ['\\', s[0]] + more else [s[0]] + more)
  {
  }

  lemma ReadCharsEscape(c: char, more: string, s: string, tail: string)
    requires c == '"' || c == '\\'
    requires ReadChars(more) == Some((s, tail))
    ensures ReadChars(['\\', c] + more) == Some(([c] + s, tail))
  {
    assert (['\\', c] + more)[2..] == more;
  }

  lemma ReadCharsPlain(c: char, more: string, s: string, tail: string)
    requires c != '"' && c != '\\'
    requires ReadChars(more) == Some((s, tail))
    ensures ReadChars([c] + more) == Some(([c] + s, tail))
  {
    assert ([c] + more)[1..] == more;
  }

  lemma QuotedRoundTrip(s: string, tail: string)
    ensures ReadQuoted(Quoted(s) + tail) == Some((s, tail))
  {
    var t := Quoted(s) + tail;
    assert t[1..] == Escaped(s) + "\"" + tail;
    ReadCharsEscaped(s, tail);
  }

  /** An escape other than `\"` and `\\` is refused rather than read as its letter. */
  lemma ReadCharsRefusesOtherEscapes(c: char, t: string)
    requires c != '"' && c != '\\'
    ensures ReadChars(['\\', c] + t) == None
  {
  }

  /** Distinct strings are written as distinct literals. */
  lemma QuotedInjective(a: string, b: string)
    ensures Quoted(a) == Quoted(b) ==> a == b
  {
    QuotedRoundTrip(a, "");
    QuotedRoundTrip(b, "");
    assert Quoted(a) + "" == Quoted(a);
    assert Quoted(b) + "" == Quoted(b);
  }

  // ---------------------------------------------------------------- numbers

  predicate IsDigit(c: char)
  {
    '0' <= c <= '9'
  }

  /** The decimal digits of `n`, without leading zeros. */
  function Decimal(n: nat): (r: string)
    ensures |r| >= 1
    ensures forall k :: 0 <= k < |r| ==> IsDigit(r[k])
    ensures r[0] == '0' ==> n == 0 && |r| == 1
  {
    var digit := ('0' as int + n % 10) as char;
    if n < 10 then [digit] else Decimal(n / 10) + [digit]
  }

  /** The number a string of decimal digits denotes. */
  function DigitsValue(s: string): nat
  {
    if s == [] then 0
    else DigitsValue(s[..|s| - 1]) * 10 + (if IsDigit(s[|s| - 1]) then s[|s| - 1] as int - '0' as int else 0)
  }

  /** The digits written for `n` denote `n`. */
  lemma {:induction false} DecimalRoundTrip(n: nat)
    ensures DigitsValue(Decimal(n)) == n
  {
    var digit := ('0' as int + n % 10) as char;
    if n >= 10 {
      var d := Decimal(n);
      assert d == Decimal(n / 10) + [digit];
      assert d[..|d| - 1] == Decimal(n / 10);
      DecimalRoundTrip(n / 10);
    }
  }

  /** The length of the run of digits `t` starts with. */
  function DigitRun(t: string): (n: nat)
    ensures n <= |t|
  {
    if t == [] || !IsDigit(t[0]) then 0 else 1 + DigitRun(t[1..])
  }

  /** A run of digits ends where the next character is not a digit. */
  lemma {:induction false} DigitRunOf(ds: string, tail: string)
    requires forall k :: 0 <= k < |ds| ==> IsDigit(ds[k])
    requires tail == [] || !IsDigit(tail[0])
    ensures DigitRun(ds + tail) == |ds|
  {
    if ds != [] {
      assert (ds + tail)[1..] == ds[1..] + tail;
      DigitRunOf(ds[1..], tail);
    } else {
      assert ds + tail == tail;
    }
  }

  /** A JSON integer, or `null` for `None`. */
  function OptionalNumber(v: Option<nat>): (r: string)
    ensures v.None? <==> r == "null"
    ensures v.Some? ==> |r| >= 1 && (forall k :: 0 <= k < |r| ==> IsDigit(r[k])) && DigitsValue(r) == v.value
    ensures v.Some? ==> (r[0] == '0' ==> |r| == 1)
  {
    match v
    case None => "null"
    case Some(n) => DecimalRoundTrip(n); Decimal(n)
  }

  /** `null` or a run of digits without a leading zero at the start of `t`, and the
      text after it. */
  function ReadOptionalNumber(t: string): Option<(Option<nat>, string)>
  {
    if |t| >= 4 && t[..4] == "null" then Some((None, t[4..]))
    else
      var n := DigitRun(t);
      if n == 0 || (n > 1 && t[0] == '0') then None else Some((Some(DigitsValue(t[..n])), t[n..]))
  }

  /** A number with a leading zero, such as `007`, is refused. */
  lemma ReadOptionalNumberRefusesLeadingZero(t: string)
    requires |t| >= 2 && t[0] == '0' && IsDigit(t[1])
    ensures ReadOptionalNumber(t) == None
  {
    assert |t| >= 4 ==> t[..4][0] == '0';
    assert t[1..][0] == t[1];
    assert DigitRun(t) == 1 + DigitRun(t[1..]) >= 2;
  }

  /** A limit reads back as itself when the text after it does not continue the
      number. */
  lemma OptionalNumberRoundTrip(v: Option<nat>, tail: string)
    requires tail == [] || !IsDigit(tail[0])
    ensures ReadOptionalNumber(OptionalNumber(v) + tail) == Some((v, tail))
  {
    var r := OptionalNumber(v);
    var t := r + tail;
    if v.None? {
      assert t[..4] == "null" && t[4..] == tail;
    } else {
      assert t[0] == r[0];
      DigitRunOf(r, tail);
      assert t[..|r|] == r && t[|r|..] == tail;
    }
  }

  // ---------------------------------------------------------------- lists

  /** Each element written by `render`. */
  function Rendered<T>(xs: seq<T>, render: T -> string): (pieces: seq<string>)
    ensures |pieces| == |xs|
    ensures forall i :: 0 <= i < |xs| ==> pieces[i] == render(xs[i])
  {
    seq(|xs|, i requires 0 <= i < |xs| => render(xs[i]))
  }

  /** The pieces joined by ", ". */
  function Joined(parts: seq<string>): (r: string)
    ensures |parts| > 0 ==> parts[0] <= r
    ensures |parts| == 1 ==> r == parts[0]
  {
    if parts == [] then ""
    else if |parts| == 1 then parts[0]
    else parts[0] + ", " + Joined(parts[1..])
  }

  /** A non-empty list of items read by `item`, separated by ", " and ended by
      `close`, and the text after `close`. */
  function ReadItems<T>(t: string, item: string -> Option<(T, string)>, close: char): Option<(seq<T>, string)>
    decreases |t|
  {
    match item(t)
    case None => None
    case Some(p) =>
      var rest := p.1;
      if |rest| >= |t| then None
      else if |rest| >= 2 && rest[..2] == ", " then
        match ReadItems(rest[2..], item, close)
        case None => None
        case Some(q) => Some(([p.0] + q.0, q.1))
      else if |rest| >= 1 && rest[0] == close then Some(([p.0], rest[1..]))
      else None
  }

  /** The last item of a list: `close` follows it. */
  lemma ReadItemsLast<T>(t: string, item: string -> Option<(T, string)>, close: char, x: T, rest: string)
    requires close != ','
    requires item(t) == Some((x, rest)) && |rest| < |t|
    requires |rest| > 0 && rest[0] == close
    ensures ReadItems(t, item, close) == Some(([x], rest[1..]))
  {
  }

  /** An item followed by ", " and the rest of the list. */
  lemma ReadItemsNext<T>(t: string, item: string -> Option<(T, string)>, close: char, x: T, rest: string,
                         later: seq<T>, tail: string)
    requires item(t) == Some((x, rest)) && |rest| < |t|
    requires |rest| >= 2 && rest[..2] == ", "
    requires ReadItems(rest[2..], item, close) == Some((later, tail))
    ensures ReadItems(t, item, close) == Some(([x] + later, tail))
  {
  }

  /** `item` reads back whatever `render` writes, as long as a separator or `close`
      follows it. */
  ghost predicate ReadsBack<T(!new)>(render: T -> string, item: string -> Option<(T, string)>, close: char)
  {
    && (forall x :: |render(x)| > 0)
    && (forall x, rest :: |rest| > 0 && (rest[0] == ',' || rest[0] == close) ==>
          item(render(x) + rest) == Some((x, rest)))
  }

  /** Joining rendered elements loses nothing: when `item` reads back what `render`
      writes, the joined text reads back as every element, in order. */
  lemma {:induction false} ReadItemsJoined<T(!new)>(
    xs: seq<T>, render: T -> string, item: string -> Option<(T, string)>, close: char, tail: string)
    requires |xs| > 0 && close != ','
    requires ReadsBack(render, item, close)
    ensures ReadItems(Joined(Rendered(xs, render)) + [close] + tail, item, close) == Some((xs, tail))
  {
    if |xs| == 1 {
      ReadItemsJoinedOne(xs, render, item, close, tail);
    } else {
      ReadItemsJoined(xs[1..], render, item, close, tail);
      var rest := ", " + Joined(Rendered(xs[1..], render)) + [close] + tail;
      assert item(render(xs[0]) + rest) == Some((xs[0], rest));
      ReadItemsJoinedMore(xs, render, item, close, tail);
    }
  }

  lemma ReadItemsJoinedOne<T(!new)>(
    xs: seq<T>, render: T -> string, item: string -> Option<(T, string)>, close: char, tail: string)
    requires |xs| == 1 && close != ','
    requires ReadsBack(render, item, close)
    ensures ReadItems(Joined(Rendered(xs, render)) + [close] + tail, item, close) == Some((xs, tail))
  {
    var t := Joined(Rendered(xs, render)) + [close] + tail;
    var rest := [close] + tail;
    assert t == render(xs[0]) + rest;
    assert item(render(xs[0]) + rest) == Some((xs[0], rest));
    assert |render(xs[0])| > 0;
    ReadItemsLast(t, item, close, xs[0], rest);
    assert rest[1..] == tail;
    assert xs == [xs[0]];
  }

  lemma ReadItemsJoinedMore<T(!new)>(
    xs: seq<T>, render: T -> string, item: string -> Option<(T, string)>, close: char, tail: string)
    requires |xs| > 1 && |render(xs[0])| > 0
    requires var rest := ", " + Joined(Rendered(xs[1..], render)) + [close] + tail;
      item(render(xs[0]) + rest) == Some((xs[0], rest))
    requires ReadItems(Joined(Rendered(xs[1..], render)) + [close] + tail, item, close) == Some((xs[1..], tail))
    ensures ReadItems(Joined(Rendered(xs, render)) + [close] + tail, item, close) == Some((xs, tail))
  {
    var pieces := Rendered(xs, render);
    var later := Rendered(xs[1..], render);
    assert pieces[1..] == later;
    var t := Joined(pieces) + [close] + tail;
    var rest := ", " + Joined(later) + [close] + tail;
    assert t == render(xs[0]) + rest;
    assert rest[..2] == ", ";
    assert rest[2..] == Joined(later) + [close] + tail;
    ReadItemsNext(t, item, close, xs[0], rest, xs[1..], tail);
    assert xs == [xs[0]] + xs[1..];
  }

  /** A JSON array of strings. */
  function StringArray(xs: seq<string>): (r: string)
    ensures |r| >= 2 && r[0] == '[' && r[|r| - 1] == ']'
    ensures xs == [] ==> r == "[]"
    ensures |xs| > 0 ==> Quoted(xs[0]) <= r[1..]
  {
    "[" + Joined(Rendered(xs, Quoted)) + "]"
  }

  /** An array of string literals at the start of `t`, and the text after it. */
  function ReadStringArray(t: string): Option<(seq<string>, string)>
  {
    if t == [] || t[0] != '[' then None
    else if |t| >= 2 && t[1] == ']' then Some(([], t[2..]))
    else ReadItems(t[1..], ReadQuoted, ']')
  }

  /** The text of a non-empty list between its delimiters. */
  lemma Enclosed(open: char, close: char, pieces: seq<string>, tail: string)
    requires |pieces| > 0 && |pieces[0]| > 0
    ensures var t := [open] + Joined(pieces) + [close] + tail;
      |t| >= 2 && t[0] == open && t[1] == pieces[0][0] && t[1..] == Joined(pieces) + [close] + tail
  {
    var t := [open] + Joined(pieces) + [close] + tail;
    assert pieces[0] <= Joined(pieces);
    assert t[1..] == Joined(pieces) + [close] + tail;
  }

  /** `ReadQuoted` reads back what `Quoted` writes, whatever follows. */
  lemma QuotedReadsBack(close: char)
    ensures ReadsBack(Quoted, ReadQuoted, close)
  {
    forall x, rest | |rest| > 0 && (rest[0] == ',' || rest[0] == close)
      ensures ReadQuoted(Quoted(x) + rest) == Some((x, rest))
    {
      QuotedRoundTrip(x, rest);
    }
  }

  /** An array of strings reads back as its elements, in order, whatever follows. */
  lemma StringArrayRoundTrip(xs: seq<string>, tail: string)
    ensures ReadStringArray(StringArray(xs) + tail) == Some((xs, tail))
  {
    if xs == [] {
      assert StringArray(xs) + tail == "[]" + tail;
    } else {
      QuotedReadsBack(']');
      ReadItemsJoined(xs, Quoted, ReadQuoted, ']', tail);
      Enclosed('[', ']', Rendered(xs, Quoted), tail);
    }
  }

  /** Distinct lists of strings are written as distinct arrays. */
  lemma StringArrayInjective(xs: seq<string>, ys: seq<string>)
    ensures StringArray(xs) == StringArray(ys) ==> xs == ys
  {
    StringArrayRoundTrip(xs, "");
    StringArrayRoundTrip(ys, "");
    assert StringArray(xs) + "" == StringArray(xs);
    assert StringArray(ys) + "" == StringArray(ys);
  }

  // ---------------------------------------------------------------- objects

  /** One member of an object: the key's literal, ": ", the rendered value. */
  function Member(m: (string, string)): string
  {
    Quoted(m.0) + ": " + m.1
  }

  /** A JSON object from its keys and the already-rendered values, in order. */
  function Object(members: seq<(string, string)>): (r: string)
    ensures |r| >= 2 && r[0] == '{' && r[|r| - 1] == '}'
    ensures members == [] ==> r == "{}"
    ensures |members| > 0 ==> Member(members[0]) <= r[1..]
  {
    "{" + Joined(Rendered(members, Member)) + "}"
  }

  /** An object whose members are read by `item`, and the text after it. */
  function ReadObject<T>(t: string, item: string -> Option<(T, string)>): Option<(seq<T>, string)>
  {
    if t == [] || t[0] != '{' then None
    else if |t| >= 2 && t[1] == '}' then Some(([], t[2..]))
    else ReadItems(t[1..], item, '}')
  }

  /** The object written for a table, when each entry's member text is `render` of it. */
  lemma ObjectRoundTrip<T(!new)>(
    table: seq<T>, members: seq<(string, string)>, render: T -> string,
    item: string -> Option<(T, string)>, tail: string)
    requires |members| == |table|
    requires forall i :: 0 <= i < |table| ==> Member(members[i]) == render(table[i])
    requires ReadsBack(render, item, '}')
    ensures ReadObject(Object(members) + tail, item) == Some((table, tail))
  {
    if table == [] {
      assert Object(members) + tail == "{}" + tail;
    } else {
      assert Rendered(members, Member) == Rendered(table, render);
      ReadItemsJoined(table, render, item, '}', tail);
      Enclosed('{', '}', Rendered(table, render), tail);
    }
  }

  // ---------------------------------------------------------------- the two table shapes

  /** A table from names to lists of strings, as an object of arrays. */
  function ArrayTable(table: seq<(string, seq<string>)>): string
  {
    Object(seq(|table|, i requires 0 <= i < |table| => (table[i].0, StringArray(table[i].1))))
  }

  /** A table from names to optional numbers, as an object of integers and `null`. */
  function LimitTable(table: seq<(string, Option<nat>)>): string
  {
    Object(seq(|table|, i requires 0 <= i < |table| => (table[i].0, OptionalNumber(table[i].1))))
  }

  function ArrayEntry(e: (string, seq<string>)): string
  {
    Member((e.0, StringArray(e.1)))
  }

  function LimitEntry(e: (string, Option<nat>)): string
  {
    Member((e.0, OptionalNumber(e.1)))
  }

  /** A key's literal, ": " and a value read by `value`, and the text after it. */
  function ReadKeyed<V>(t: string, value: string -> Option<(V, string)>): Option<((string, V), string)>
  {
    match ReadQuoted(t)
    case None => None
    case Some(k) =>
      if |k.1| < 2 || k.1[..2] != ": " then None
      else match value(k.1[2..])
        case None => None
        case Some(v) => Some(((k.0, v.0), v.1))
  }

  function ReadArrayEntry(t: string): Option<((string, seq<string>), string)>
  {
    ReadKeyed(t, ReadStringArray)
  }

  function ReadLimitEntry(t: string): Option<((string, Option<nat>), string)>
  {
    ReadKeyed(t, ReadOptionalNumber)
  }

  /** The reading of an object of arrays, as `json.loads` reads the text the writers
      produce: the whole text must be the object. */
  function ReadArrayTable(t: string): Option<seq<(string, seq<string>)>>
  {
    match ReadObject(t, ReadArrayEntry)
    case Some(p) => if p.1 == "" then Some(p.0) else None
    case None => None
  }

  /** The reading of an object of integers and `null`, as `json.loads` reads the text
      the writers produce. */
  function ReadLimitTable(t: string): Option<seq<(string, Option<nat>)>>
  {
    match ReadObject(t, ReadLimitEntry)
    case Some(p) => if p.1 == "" then Some(p.0) else None
    case None => None
  }

  /** A keyed member reads back as its key and value. */
  lemma KeyedRoundTrip<V>(key: string, valueText: string, rest: string,
                          value: string -> Option<(V, string)>, v: V)
    requires value(valueText + rest) == Some((v, rest))
    ensures ReadKeyed(Member((key, valueText)) + rest, value) == Some(((key, v), rest))
  {
    var after := ": " + valueText + rest;
    assert Member((key, valueText)) + rest == Quoted(key) + after;
    QuotedRoundTrip(key, after);
    assert after[..2] == ": " && after[2..] == valueText + rest;
  }

  /** The text written for a table of arrays reads back as that table. */
  lemma ArrayTableRoundTrip(table: seq<(string, seq<string>)>)
    ensures ReadArrayTable(ArrayTable(table)) == Some(table)
  {
    var members := seq(|table|, i requires 0 <= i < |table| => (table[i].0, StringArray(table[i].1)));
    forall e: (string, seq<string>), rest | |rest| > 0 && (rest[0] == ',' || rest[0] == '}')
      ensures ReadArrayEntry(ArrayEntry(e) + rest) == Some((e, rest))
    {
      StringArrayRoundTrip(e.1, rest);
      KeyedRoundTrip(e.0, StringArray(e.1), rest, ReadStringArray, e.1);
    }
    ObjectRoundTrip(table, members, ArrayEntry, ReadArrayEntry, "");
    assert ArrayTable(table) + "" == ArrayTable(table);
  }

  /** The text written for a table of limits reads back as that table. */
  lemma LimitTableRoundTrip(table: seq<(string, Option<nat>)>)
    ensures ReadLimitTable(LimitTable(table)) == Some(table)
  {
    var members := seq(|table|, i requires 0 <= i < |table| => (table[i].0, OptionalNumber(table[i].1)));
    forall e: (string, Option<nat>), rest | |rest| > 0 && (rest[0] == ',' || rest[0] == '}')
      ensures ReadLimitEntry(LimitEntry(e) + rest) == Some((e, rest))
    {
      OptionalNumberRoundTrip(e.1, rest);
      KeyedRoundTrip(e.0, OptionalNumber(e.1), rest, ReadOptionalNumber, e.1);
    }
    ObjectRoundTrip(table, members, LimitEntry, ReadLimitEntry, "");
    assert LimitTable(table) + "" == LimitTable(table);
  }
}
