/**
 The compact JSON (RFC 8259) that the tools write, and reading it. Reading skips white space between tokens; strings
 with escapes and numbers with a fraction or an exponent are not read.
 */
module Json {
  import opened Wrappers
  import opened Sequences
  import opened Texts
  import Numerals

  datatype Json =
    | Str(text: string) | Num(number: int) | Bool(truth: bool) | Arr(items: seq<Json>) | Obj(pairs: seq<Pair>)

  datatype Pair = Pair(key: string, value: Json)

  // ---------- printing ----------

  function Number(n: int): string { if n < 0 then ['-'] + Numerals.Digits(-n, 10) else Numerals.Digits(n, 10) }

  function Quoted(s: string): string { ['"'] + (s + ['"']) }

  function Print(j: Json): string
    decreases j, 0
  {
    match j
    case Str(s) => Quoted(s)
    case Num(n) => Number(n)
    case Bool(b) => if b then "true" else "false"
    case Arr(items) => ['['] + PrintItems(items)
    case Obj(pairs) => ['{'] + PrintPairs(pairs)
  }

  /** The items and the closing bracket. */
  function PrintItems(items: seq<Json>): string
    decreases items, 1
  {
    if items == [] then [']']
    else if |items| == 1 then Print(items[0]) + [']']
    else Print(items[0]) + ([','] + PrintItems(items[1..]))
  }

  function PrintPair(p: Pair): string
    decreases p, 1
  {
    Quoted(p.key) + ([':'] + Print(p.value))
  }

  function PrintPairs(pairs: seq<Pair>): string
    decreases pairs, 2
  {
    if pairs == [] then ['}']
    else if |pairs| == 1 then PrintPair(pairs[0]) + ['}']
    else PrintPair(pairs[0]) + ([','] + PrintPairs(pairs[1..]))
  }

  // ---------- reading ----------

  predicate IsSpace(c: char) { c == ' ' || c == '\t' || c == '\n' || c == '\r' }

  function Skip(s: string): (t: string)
    ensures |t| <= |s| && (t != [] ==> !IsSpace(t[0]))
  {
    if s != [] && IsSpace(s[0]) then Skip(s[1..]) else s
  }

  /** Characters that end or escape a string, or may not stand in one. */
  predicate EndsString(c: char) { c == '"' || c == '\\' || c as int < 0x20 }

  predicate NotDigit(c: char) { !('0' <= c <= '9') }

  predicate Fractional(c: char) { c == '.' || c == 'e' || c == 'E' }

  /** The rest after a string's closing quote. */
  function ReadString(s: string): (r: Option<(string, string)>)
    ensures r.Some? ==> |r.value.1| < |s|
  {
    var text := Until(s, EndsString);
    if |text| < |s| && s[|text|] == '"' then Some((text, s[|text| + 1..])) else None
  }

  function ReadDigits(s: string): (r: Option<(nat, string)>)
    ensures r.Some? ==> |r.value.1| < |s|
  {
    var digits := Until(s, NotDigit);
    var rest := s[|digits|..];
    if digits == [] || (|digits| > 1 && digits[0] == '0') || (rest != [] && Fractional(rest[0])) then None
    else
      var n := Numerals.ParseDigits(digits, 10);
      if n.Some? then Some((n.value, rest)) else None
  }

  function ReadNumber(t: string): (r: Option<(Json, string)>)
    ensures r.Some? ==> |r.value.1| < |t|
  {
    if t != [] && t[0] == '-' then
      var r := ReadDigits(t[1..]);
      if r.Some? then Some((Num(0 - r.value.0), r.value.1)) else None
    else
      var r := ReadDigits(t);
      if r.Some? then Some((Num(r.value.0), r.value.1)) else None
  }

  /** A literal or a number. */
  function ReadScalar(t: string): (r: Option<(Json, string)>)
    ensures r.Some? ==> |r.value.1| < |t|
  {
    if "true" <= t then Some((Bool(true), t[4..]))
    else if "false" <= t then Some((Bool(false), t[5..]))
    else ReadNumber(t)
  }

  function ReadValue(s: string): (r: Option<(Json, string)>)
    ensures r.Some? ==> |r.value.1| < |s|
    decreases |s|, 0
  {
    var t := Skip(s);
    if t == [] then None
    else if t[0] == '"' then
      var r := ReadString(t[1..]);
      if r.Some? then Some((Str(r.value.0), r.value.1)) else None
    else if t[0] == '[' then
      var r := ReadItems(t[1..], true);
      if r.Some? then Some((Arr(r.value.0), r.value.1)) else None
    else if t[0] == '{' then
      var r := ReadPairs(t[1..], true);
      if r.Some? then Some((Obj(r.value.0), r.value.1)) else None
    else ReadScalar(t)
  }

  /** Items up to the closing bracket, which may come at once only at the start. */
  function ReadItems(s: string, first: bool): (r: Option<(seq<Json>, string)>)
    ensures r.Some? ==> |r.value.1| < |s|
    decreases |s|, 1
  {
    var t := Skip(s);
    if first && t != [] && t[0] == ']' then Some(([], t[1..]))
    else
      var v := ReadValue(t);
      if v.None? then None
      else
        var u := Skip(v.value.1);
        if u == [] then None
        else if u[0] == ']' then Some(([v.value.0], u[1..]))
        else if u[0] == ',' then
          var more := ReadItems(u[1..], false);
          if more.Some? then Some(([v.value.0] + more.value.0, more.value.1)) else None
        else None
  }

  function ReadPair(s: string): (r: Option<(Pair, string)>)
    ensures r.Some? ==> |r.value.1| < |s|
    decreases |s|, 1
  {
    var t := Skip(s);
    if t == [] || t[0] != '"' then None
    else
      var key := ReadString(t[1..]);
      if key.None? then None
      else
        var u := Skip(key.value.1);
        if u == [] || u[0] != ':' then None
        else
          var v := ReadValue(u[1..]);
          if v.Some? then Some((Pair(key.value.0, v.value.0), v.value.1)) else None
  }

  function ReadPairs(s: string, first: bool): (r: Option<(seq<Pair>, string)>)
    ensures r.Some? ==> |r.value.1| < |s|
    decreases |s|, 2
  {
    var t := Skip(s);
    if first && t != [] && t[0] == '}' then Some(([], t[1..]))
    else
      var p := ReadPair(t);
      if p.None? then None
      else
        var u := Skip(p.value.1);
        if u == [] then None
        else if u[0] == '}' then Some(([p.value.0], u[1..]))
        else if u[0] == ',' then
          var more := ReadPairs(u[1..], false);
          if more.Some? then Some(([p.value.0] + more.value.0, more.value.1)) else None
        else None
  }

  /** `json.loads`: one value and nothing but white space after it. */
  function Loads(s: string): Option<Json> {
    var r := ReadValue(s);
    if r.Some? && Skip(r.value.1) == [] then Some(r.value.0) else None
  }

  // ---------- reading undoes printing ----------

  predicate PlainText(s: string) { forall i :: 0 <= i < |s| ==> !EndsString(s[i]) && s[i] as int < 128 }

  /** No string needs an escape: they are ASCII without quotes, backslashes and control characters. */
  predicate Plain(j: Json)
    decreases j, 0
  {
    match j
    case Str(s) => PlainText(s)
    case Arr(items) => PlainItems(items)
    case Obj(pairs) => PlainPairs(pairs)
    case _ => true
  }

  predicate PlainItems(items: seq<Json>)
    decreases items, 1
  {
    items != [] ==> Plain(items[0]) && PlainItems(items[1..])
  }

  predicate PlainPair(p: Pair)
    decreases p, 1
  {
    PlainText(p.key) && Plain(p.value)
  }

  predicate PlainPairs(pairs: seq<Pair>)
    decreases pairs, 2
  {
    pairs != [] ==> PlainPair(pairs[0]) && PlainPairs(pairs[1..])
  }

  /** What may follow a value: nothing, a separator or a closing bracket. */
  predicate Delimited(rest: string) {
    rest != [] ==> rest[0] == ',' || rest[0] == ']' || rest[0] == '}' || rest[0] == ':'
  }

  lemma SkipNothing(s: string)
    requires s != [] && !IsSpace(s[0])
    ensures Skip(s) == s
  {
  }

  lemma ReadsString(s: string, rest: string)
    requires PlainText(s)
    ensures ReadString(s + (['"'] + rest)) == Some((s, rest))
  {
    UntilStops(s, ['"'] + rest, EndsString);
    assert (s + (['"'] + rest))[|s| + 1..] == rest;
  }

  lemma {:induction false} DigitsAreDigits(n: nat)
    ensures var d := Numerals.Digits(n, 10);
            (forall i :: 0 <= i < |d| ==> !NotDigit(d[i])) && (d[0] == '0' <==> n == 0) && (n < 10 <==> |d| == 1)
  {
    if n >= 10 { DigitsAreDigits(n / 10); }
  }

  lemma ReadsDigits(n: nat, rest: string)
    requires Delimited(rest)
    ensures ReadDigits(Numerals.Digits(n, 10) + rest) == Some((n, rest))
  {
    var d := Numerals.Digits(n, 10);
    DigitsAreDigits(n);
    UntilStops(d, rest, NotDigit);
    Numerals.DigitsRoundTrip(n, 10);
    assert (d + rest)[|d|..] == rest;
  }

  /** How a printed value begins. */
  lemma PrintHead(j: Json)
    ensures Print(j) != [] && !IsSpace(Print(j)[0]) && Print(j)[0] != ']' && Print(j)[0] != '}'
    ensures j.Num? ==> Print(j)[0] == '-' || !NotDigit(Print(j)[0])
  {
    match j {
      case Num(n) => DigitsAreDigits(if n < 0 then -n else n);
      case _ =>
    }
  }

  lemma ReadsNatural(d: string, n: nat, rest: string)
    requires d != [] && d[0] != '-' && ReadDigits(d + rest) == Some((n, rest))
    ensures ReadNumber(d + rest) == Some((Num(n), rest))
  {
  }

  lemma ReadsNegative(d: string, n: nat, rest: string)
    requires ReadDigits(d + rest) == Some((n, rest))
    ensures ReadNumber((['-'] + d) + rest) == Some((Num(0 - n), rest))
  {
    assert ((['-'] + d) + rest)[1..] == d + rest;
  }

  lemma ReadsNumber(n: int, rest: string)
    requires Delimited(rest)
    ensures ReadNumber(Number(n) + rest) == Some((Num(n), rest))
  {
    if n < 0 {
      ReadsDigits(-n, rest);
      ReadsNegative(Numerals.Digits(-n, 10), -n, rest);
    } else {
      ReadsDigits(n, rest);
      DigitsAreDigits(n);
      ReadsNatural(Numerals.Digits(n, 10), n, rest);
    }
  }

  lemma NotLiteral(t: string)
    requires t != [] && t[0] != 't' && t[0] != 'f'
    ensures ReadScalar(t) == ReadNumber(t)
  {
    assert "true"[0] == 't' && "false"[0] == 'f';
  }

  lemma NumberIsRead(t: string)
    requires t != [] && (t[0] == '-' || !NotDigit(t[0]))
    ensures ReadValue(t) == ReadNumber(t)
  {
    NotLiteral(t);
    ScalarIsRead(t);
  }

  lemma ReadsQuoted(s: string, rest: string)
    requires PlainText(s)
    ensures ReadValue(Quoted(s) + rest) == Some((Str(s), rest))
  {
    ReadsString(s, rest);
    assert (Quoted(s) + rest)[1..] == s + (['"'] + rest);
  }

  lemma ReadsTruth(b: bool, rest: string)
    ensures ReadScalar(Print(Bool(b)) + rest) == Some((Bool(b), rest))
  {
    var s := Print(Bool(b)) + rest;
    if b {
      assert s[..4] == "true" && s[4..] == rest;
    } else {
      assert s[..5] == "false" && s[5..] == rest && s[0] == 'f' && "true"[0] == 't';
    }
  }

  lemma ScalarIsRead(t: string)
    requires t != [] && !IsSpace(t[0]) && t[0] != '"' && t[0] != '[' && t[0] != '{'
    ensures ReadValue(t) == ReadScalar(t)
  {
  }

  lemma ArrayIsRead(t: string, items: seq<Json>, rest: string)
    requires ReadItems(t, true) == Some((items, rest))
    ensures ReadValue(['['] + t) == Some((Arr(items), rest))
  {
    assert (['['] + t)[1..] == t;
  }

  lemma ObjectIsRead(t: string, pairs: seq<Pair>, rest: string)
    requires ReadPairs(t, true) == Some((pairs, rest))
    ensures ReadValue(['{'] + t) == Some((Obj(pairs), rest))
  {
    assert (['{'] + t)[1..] == t;
  }

  lemma LastItem(t: string, first: bool, v: Json, rest: string)
    requires t != [] && !IsSpace(t[0]) && t[0] != ']' && ReadValue(t) == Some((v, [']'] + rest))
    ensures ReadItems(t, first) == Some(([v], rest))
  {
    assert ([']'] + rest)[1..] == rest;
  }

  lemma NextItem(t: string, first: bool, v: Json, more: string, items: seq<Json>, rest: string)
    requires t != [] && !IsSpace(t[0]) && t[0] != ']' && ReadValue(t) == Some((v, [','] + more))
    requires ReadItems(more, false) == Some((items, rest))
    ensures ReadItems(t, first) == Some(([v] + items, rest))
  {
    assert ([','] + more)[1..] == more;
  }

  lemma LastPair(t: string, first: bool, p: Pair, rest: string)
    requires t != [] && !IsSpace(t[0]) && t[0] != '}' && ReadPair(t) == Some((p, ['}'] + rest))
    ensures ReadPairs(t, first) == Some(([p], rest))
  {
    assert (['}'] + rest)[1..] == rest;
  }

  lemma NextPair(t: string, first: bool, p: Pair, more: string, pairs: seq<Pair>, rest: string)
    requires t != [] && !IsSpace(t[0]) && t[0] != '}' && ReadPair(t) == Some((p, [','] + more))
    requires ReadPairs(more, false) == Some((pairs, rest))
    ensures ReadPairs(t, first) == Some(([p] + pairs, rest))
  {
    assert ([','] + more)[1..] == more;
  }

  /** Regrouping, whatever the text of the first element and of the rest. */
  lemma Followed(text: string, head: string, tail: string, rest: string)
    requires text == head + ([','] + tail)
    ensures text + rest == head + ([','] + (tail + rest))
  {
    Associative(head, [','] + tail, rest);
    Associative([','], tail, rest);
  }

  lemma ItemsText(items: seq<Json>, rest: string)
    requires items != []
    ensures |items| == 1 ==> PrintItems(items) + rest == Print(items[0]) + ([']'] + rest)
    ensures |items| > 1 ==> PrintItems(items) + rest == Print(items[0]) + ([','] + (PrintItems(items[1..]) + rest))
  {
    if |items| == 1 {
      Associative(Print(items[0]), [']'], rest);
    } else {
      Followed(PrintItems(items), Print(items[0]), PrintItems(items[1..]), rest);
    }
  }

  lemma PairsText(pairs: seq<Pair>, rest: string)
    requires pairs != []
    ensures |pairs| == 1 ==> PrintPairs(pairs) + rest == PrintPair(pairs[0]) + (['}'] + rest)
    ensures |pairs| > 1 ==> PrintPairs(pairs) + rest == PrintPair(pairs[0]) + ([','] + (PrintPairs(pairs[1..]) + rest))
  {
    if |pairs| == 1 {
      Associative(PrintPair(pairs[0]), ['}'], rest);
    } else {
      Followed(PrintPairs(pairs), PrintPair(pairs[0]), PrintPairs(pairs[1..]), rest);
    }
  }

  lemma PairHead(p: Pair)
    ensures PrintPair(p) != [] && PrintPair(p)[0] == '"'
  {
  }

  lemma NestedText(items: seq<Json>, pairs: seq<Pair>, rest: string)
    ensures Print(Arr(items)) + rest == ['['] + (PrintItems(items) + rest)
    ensures Print(Obj(pairs)) + rest == ['{'] + (PrintPairs(pairs) + rest)
  {
  }

  lemma ScalarText(j: Json, rest: string)
    requires j.Num? || j.Bool?
    ensures j.Num? ==> Print(j) == Number(j.number) && (Print(j) + rest)[0] == Print(j)[0]
    ensures j.Bool? ==> (Print(j) + rest)[0] == 't' || (Print(j) + rest)[0] == 'f'
  {
    PrintHead(j);
  }

  /** Reading what was printed gives it back, with what follows left over. */
  lemma {:induction false} ReadsValue(j: Json, rest: string)
    requires Plain(j) && Delimited(rest)
    ensures ReadValue(Print(j) + rest) == Some((j, rest))
    decreases j, 0
  {
    match j {
      case Str(s) => ReadsQuoted(s, rest);
      case Num(n) => ReadsNum(n, rest);
      case Bool(b) => ReadsBool(b, rest);
      case Arr(items) =>
        ReadsItems(items, rest, true);
        NestedText(items, [], rest);
        ArrayIsRead(PrintItems(items) + rest, items, rest);
      case Obj(pairs) =>
        ReadsPairs(pairs, rest, true);
        NestedText([], pairs, rest);
        ObjectIsRead(PrintPairs(pairs) + rest, pairs, rest);
    }
  }

  lemma ReadsNum(n: int, rest: string)
    requires Delimited(rest)
    ensures ReadValue(Print(Num(n)) + rest) == Some((Num(n), rest))
  {
    PrintHead(Num(n));
    ScalarText(Num(n), rest);
    ReadsNumber(n, rest);
    NumberIsRead(Print(Num(n)) + rest);
  }

  lemma ReadsBool(b: bool, rest: string)
    ensures ReadValue(Print(Bool(b)) + rest) == Some((Bool(b), rest))
  {
    ScalarText(Bool(b), rest);
    ReadsTruth(b, rest);
    ScalarIsRead(Print(Bool(b)) + rest);
  }

  lemma {:induction false} ReadsItems(items: seq<Json>, rest: string, first: bool)
    requires PlainItems(items) && (first || items != [])
    ensures ReadItems(PrintItems(items) + rest, first) == Some((items, rest))
    decreases items, 1
  {
    if items == [] {
      NoItems(rest);
    } else {
      ItemsText(items, rest);
      FirstAndRest(items);
      PrintHead(items[0]);
      if |items| == 1 {
        ReadsValue(items[0], [']'] + rest);
        LastItem(PrintItems(items) + rest, first, items[0], rest);
      } else {
        var more := PrintItems(items[1..]) + rest;
        ReadsValue(items[0], [','] + more);
        ReadsItems(items[1..], rest, false);
        NextItem(PrintItems(items) + rest, first, items[0], more, items[1..], rest);
      }
    }
  }

  lemma NoItems(rest: string)
    ensures ReadItems(PrintItems([]) + rest, true) == Some(([], rest))
    ensures ReadPairs(PrintPairs([]) + rest, true) == Some(([], rest))
  {
    assert ([']'] + rest)[1..] == rest && (['}'] + rest)[1..] == rest;
  }

  lemma ReadsPair(p: Pair, rest: string)
    requires PlainPair(p) && Delimited(rest)
    ensures ReadPair(PrintPair(p) + rest) == Some((p, rest))
    decreases p, 1
  {
    var after := [':'] + (Print(p.value) + rest);
    assert PrintPair(p) + rest == ['"'] + (p.key + (['"'] + after));
    SkipNothing(PrintPair(p) + rest);
    assert (PrintPair(p) + rest)[1..] == p.key + (['"'] + after);
    ReadsString(p.key, after);
    SkipNothing(after);
    assert after[1..] == Print(p.value) + rest;
    ReadsValue(p.value, rest);
  }

  lemma {:induction false} ReadsPairs(pairs: seq<Pair>, rest: string, first: bool)
    requires PlainPairs(pairs) && (first || pairs != [])
    ensures ReadPairs(PrintPairs(pairs) + rest, first) == Some((pairs, rest))
    decreases pairs, 2
  {
    if pairs == [] {
      NoItems(rest);
    } else {
      PairsText(pairs, rest);
      FirstAndRest(pairs);
      PairHead(pairs[0]);
      if |pairs| == 1 {
        ReadsPair(pairs[0], ['}'] + rest);
        LastPair(PrintPairs(pairs) + rest, first, pairs[0], rest);
      } else {
        var more := PrintPairs(pairs[1..]) + rest;
        ReadsPair(pairs[0], [','] + more);
        ReadsPairs(pairs[1..], rest, false);
        NextPair(PrintPairs(pairs) + rest, first, pairs[0], more, pairs[1..], rest);
      }
    }
  }

  /** For every value whose strings need no escape, loading its compact text gives it back. */
  lemma LoadsUndoesPrinting(j: Json)
    requires Plain(j)
    ensures Loads(Print(j)) == Some(j)
  {
    ReadsValue(j, []);
    assert Print(j) + [] == Print(j);
  }

  /** The value last given for a key. */
  function Field(pairs: seq<Pair>, key: string): Option<Json> {
    if pairs == [] then None
    else if pairs[|pairs| - 1].key == key then Some(pairs[|pairs| - 1].value)
    else Field(pairs[..|pairs| - 1], key)
  }

  lemma {:induction false} FieldAt(pairs: seq<Pair>, i: nat)
    requires i < |pairs| && forall j :: 0 <= j < |pairs| && j != i ==> pairs[j].key != pairs[i].key
    ensures Field(pairs, pairs[i].key) == Some(pairs[i].value)
  {
    if i < |pairs| - 1 { FieldAt(pairs[..|pairs| - 1], i); }
  }

  // ---------- the text is ASCII, and its length adds up ----------

  predicate Ascii(s: string) { forall i :: 0 <= i < |s| ==> s[i] as int < 128 }

  lemma {:induction false} PrintIsAscii(j: Json)
    requires Plain(j)
    ensures Ascii(Print(j))
    decreases j, 0
  {
    match j {
      case Str(s) =>
      case Num(n) => DigitsAreDigits(if n < 0 then -n else n);
      case Bool(b) =>
      case Arr(items) => ItemsAreAscii(items);
      case Obj(pairs) => PairsAreAscii(pairs);
    }
  }

  lemma {:induction false} ItemsAreAscii(items: seq<Json>)
    requires PlainItems(items)
    ensures Ascii(PrintItems(items))
    decreases items, 1
  {
    if items != [] {
      PrintIsAscii(items[0]);
      ItemsAreAscii(items[1..]);
    }
  }

  lemma {:induction false} PairsAreAscii(pairs: seq<Pair>)
    requires PlainPairs(pairs)
    ensures Ascii(PrintPairs(pairs))
    decreases pairs, 2
  {
    if pairs != [] {
      PrintIsAscii(pairs[0].value);
      PairsAreAscii(pairs[1..]);
    }
  }

  lemma PairsLength(pairs: seq<Pair>)
    requires pairs != []
    ensures |PrintPairs(pairs)|
         == |pairs[0].key| + 4 + |Print(pairs[0].value)| + if |pairs| == 1 then 0 else |PrintPairs(pairs[1..])|
  {
  }
}
