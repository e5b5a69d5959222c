/**
 Unit names in `systemctl show` output: how systemd prints a list of them, and how the inventory reads it
 back. Names with escapes are printed quoted, with every backslash doubled.
 */
module DependencyNames {
  import opened Wrappers
  import opened Numerals
  import opened Sorting

  const MAX_UNITS: nat := 256
  const MAX_NAME: nat := 255

  // ---------- names ----------

  predicate Plain(c: char) {
    'A' <= c <= 'Z' || 'a' <= c <= 'z' || '0' <= c <= '9' || c == '_' || c == '.' || c == ':' || c == '@' || c == '-'
  }

  predicate LowerHex(c: char) { '0' <= c <= '9' || 'a' <= c <= 'f' }

  /** `\xHH` at the start. */
  predicate EscapeAt(s: string) {
    |s| >= 4 && s[0] == '\\' && s[1] == 'x' && LowerHex(s[2]) && LowerHex(s[3])
  }

  /** Any number of plain characters and escapes. */
  predicate IsBody(s: string) {
    s == [] || (Plain(s[0]) && IsBody(s[1..])) || (EscapeAt(s) && IsBody(s[4..]))
  }

  function Suffixes(): seq<string> {
    ["service", "timer", "target", "socket", "path", "slice", "scope", "mount", "automount", "device", "swap"]
  }

  predicate OneOf(s: string, list: seq<string>) {
    list != [] && (s == list[0] || OneOf(s, list[1..]))
  }

  /** A non-empty body, a dot and a unit type. */
  predicate IsUnit(s: string) {
    exists k | 0 < k < |s| :: s[k] == '.' && IsBody(s[..k]) && OneOf(s[k + 1..], Suffixes())
  }

  function EscapeValue(s: string): nat
    requires EscapeAt(s)
  {
    var n := ParseDigits(s[2..4], 16);
    if n.Some? then n.value else 0
  }

  /** No escape encodes a control character, a slash or DEL. */
  predicate EscapesAllowed(s: string)
    decreases |s|
  {
    if EscapeAt(s) then
      EscapeValue(s) >= 0x20 && EscapeValue(s) != 0x2f && EscapeValue(s) != 0x7f && EscapesAllowed(s[4..])
    else s == [] || EscapesAllowed(s[1..])
  }

  predicate ValidDependency(name: string) {
    |name| <= MAX_NAME && IsUnit(name) && EscapesAllowed(name)
  }

  // ---------- printing ----------

  function Doubled(s: string): string {
    if s == [] then [] else (if s[0] == '\\' then ['\\', '\\'] else [s[0]]) + Doubled(s[1..])
  }

  function Printed(name: string): string {
    if '\\' in name then ['"'] + Doubled(name) + ['"'] else name
  }

  function PrintedList(names: seq<string>): string {
    if names == [] then [] else if |names| == 1 then Printed(names[0])
    else Printed(names[0]) + [' '] + PrintedList(names[1..])
  }

  // ---------- reading ----------

  predicate IsSpace(c: char) { c == ' ' || c == '\t' || c == '\r' || c == '\n' }
  predicate IsQuote(c: char) { c == '"' || c == '\'' }

  datatype LexState = Between | InWord | InQuote(quote: char) | Escaped(quoted: bool)

  /** `shlex.split` without comments: POSIX quoting, words separated by white space. */
  function Lex(s: string, state: LexState, token: string, quoted: bool): Option<seq<string>>
    decreases |s|
  {
    if s == [] then
      match state
      case Between => Some([])
      case InWord => Some(if token != [] || quoted then [token] else [])
      case InQuote(_) => None
      case Escaped(_) => None
    else
      var c, rest := s[0], s[1..];
      match state
      case Between =>
        if IsSpace(c) then Lex(rest, Between, [], false)
        else if c == '\\' then Lex(rest, Escaped(false), [], false)
        else if IsQuote(c) then Lex(rest, InQuote(c), [], true)
        else Lex(rest, InWord, [c], false)
      case InWord =>
        if IsSpace(c) then
          var more := Lex(rest, Between, [], false);
          if more.None? then None else Some((if token != [] || quoted then [token] else []) + more.value)
        else if IsQuote(c) then Lex(rest, InQuote(c), token, true)
        else if c == '\\' then Lex(rest, Escaped(false), token, quoted)
        else Lex(rest, InWord, token + [c], quoted)
      case InQuote(q) =>
        if c == q then Lex(rest, InWord, token, quoted)
        else if c == '\\' && q == '"' then Lex(rest, Escaped(true), token, quoted)
        else Lex(rest, InQuote(q), token + [c], quoted)
      case Escaped(inQuote) =>
        var kept := if inQuote && c != '\\' && c != '"' then ['\\'] else [];
        Lex(rest, if inQuote then InQuote('"') else InWord, token + kept + [c], quoted)
  }

  /** The inside of a quoted word: plain characters and escapes with a doubled backslash. */
  predicate IsQuotedBody(s: string) {
    s == [] || (Plain(s[0]) && IsQuotedBody(s[1..]))
    || (|s| >= 5 && s[0] == '\\' && EscapeAt(s[1..]) && IsQuotedBody(s[5..]))
  }

  predicate IsWord(s: string) {
    || (s != [] && forall i | 0 <= i < |s| :: Plain(s[i]))
    || (|s| >= 3 && s[0] == '"' && s[|s| - 1] == '"' && IsQuotedBody(s[1..|s| - 1]))
  }

  /** One or more words separated by one or more spaces. */
  predicate AreWords(s: string)
    decreases |s|
  {
    exists k | 0 < k <= |s| :: IsWord(s[..k])
      && (k == |s| || exists j | k < j < |s| :: (forall i | k <= i < j :: s[i] == ' ') && AreWords(s[j..]))
  }

  function StripLeft(s: string): string { if s != [] && s[0] == ' ' then StripLeft(s[1..]) else s }
  function StripRight(s: string): string { if s != [] && s[|s| - 1] == ' ' then StripRight(s[..|s| - 1]) else s }

  function ParseTokens(names: seq<string>): Result<seq<string>> {
    if |names| > MAX_UNITS || exists i | 0 <= i < |names| :: !ValidDependency(names[i]) then Refused
    else Accepted(SortUnique(names))
  }

  function ParseText(text: string): Result<seq<string>> {
    if text == [] then Accepted([])
    else if !AreWords(text) then Refused
    else
      var names := Lex(text, Between, [], false);
      if names.None? then Refused else ParseTokens(names.value)
  }

  /** `parse_dependencies`. */
  function Parse(value: string): Result<seq<string>> {
    if |value| > MAX_UNITS * (2 * MAX_NAME + 3) then Refused else ParseText(StripRight(StripLeft(value)))
  }

  // ---------- names are bodies ----------

  lemma {:induction false} BodyConcat(a: string, b: string)
    requires IsBody(a) && IsBody(b)
    ensures IsBody(a + b)
    decreases |a|
  {
    if a == [] {
      assert a + b == b;
    } else if Plain(a[0]) && IsBody(a[1..]) {
      assert (a + b)[1..] == a[1..] + b;
      BodyConcat(a[1..], b);
    } else {
      assert (a + b)[4..] == a[4..] + b && (a + b)[..4] == a[..4];
      BodyConcat(a[4..], b);
    }
  }

  lemma {:induction false} PlainIsBody(s: string)
    requires forall i :: 0 <= i < |s| ==> Plain(s[i])
    ensures IsBody(s)
  {
    if s != [] {
      PlainIsBody(s[1..]);
    }
  }

  lemma {:induction false} OneOfIsIn(s: string, list: seq<string>)
    requires OneOf(s, list)
    ensures s in list
  {
    if s != list[0] {
      OneOfIsIn(s, list[1..]);
    }
  }

  lemma SuffixIsPlain(s: string)
    requires s in Suffixes()
    ensures forall i :: 0 <= i < |s| ==> Plain(s[i])
  {
  }

  /** All the round trip needs to know of a name. */
  ghost predicate Printable(name: string) { name != [] && |name| <= MAX_NAME && IsBody(name) }

  lemma DottedIsBody(name: string, k: nat)
    requires k < |name| && IsBody(name[..k]) && forall i :: k <= i < |name| ==> Plain(name[i])
    ensures IsBody(name)
  {
    PlainIsBody(name[k..]);
    BodyConcat(name[..k], name[k..]);
    assert name == name[..k] + name[k..];
  }

  lemma ValidIsPrintable(name: string)
    requires ValidDependency(name)
    ensures Printable(name)
  {
    var k :| 0 < k < |name| && name[k] == '.' && IsBody(name[..k]) && OneOf(name[k + 1..], Suffixes());
    OneOfIsIn(name[k + 1..], Suffixes());
    SuffixIsPlain(name[k + 1..]);
    forall i | k <= i < |name|
      ensures Plain(name[i])
    {
      assert i == k || name[i] == name[k + 1..][i - k - 1];
    }
    DottedIsBody(name, k);
  }

  // ---------- printed names are words ----------

  lemma {:induction false} DoubledConcat(a: string, b: string)
    ensures Doubled(a + b) == Doubled(a) + Doubled(b)
    decreases |a|
  {
    if a == [] {
      assert a + b == b;
    } else {
      assert (a + b)[1..] == a[1..] + b;
      DoubledConcat(a[1..], b);
    }
  }

  lemma {:induction false} DoubledLength(s: string)
    ensures |s| <= |Doubled(s)| <= 2 * |s|
  {
    if s != [] {
      DoubledLength(s[1..]);
    }
  }

  lemma DoubledEscape(s: string)
    requires EscapeAt(s)
    ensures Doubled(s) == ['\\', '\\', 'x', s[2], s[3]] + Doubled(s[4..])
  {
    assert s == ['\\', 'x', s[2], s[3]] + s[4..];
    DoubledConcat(['\\', 'x', s[2], s[3]], s[4..]);
    var e := ['\\', 'x', s[2], s[3]];
    assert e[1..] == ['x', s[2], s[3]] && e[1..][1..] == [s[2], s[3]] && e[1..][1..][1..] == [s[3]]
      && e[1..][1..][1..][1..] == [];
    assert Doubled([s[3]]) == [s[3]];
    assert Doubled([s[2], s[3]]) == [s[2], s[3]];
    assert Doubled(['x', s[2], s[3]]) == ['x', s[2], s[3]];
  }

  lemma {:induction false} DoubledIsQuotedBody(s: string)
    requires IsBody(s)
    ensures IsQuotedBody(Doubled(s))
    decreases |s|
  {
    if s != [] {
      if Plain(s[0]) && IsBody(s[1..]) {
        DoubledIsQuotedBody(s[1..]);
        assert Doubled(s)[1..] == Doubled(s[1..]);
      } else {
        DoubledEscape(s);
        DoubledIsQuotedBody(s[4..]);
        var d := Doubled(s);
        assert d[1..] == ['\\', 'x', s[2], s[3]] + Doubled(s[4..]) && d[5..] == Doubled(s[4..]);
      }
    }
  }

  lemma {:induction false} UnescapedIsPlain(s: string)
    requires IsBody(s) && '\\' !in s
    ensures forall i :: 0 <= i < |s| ==> Plain(s[i])
  {
    if s != [] {
      UnescapedIsPlain(s[1..]);
      assert s == [s[0]] + s[1..];
    }
  }

  lemma PrintedIsWord(name: string)
    requires Printable(name)
    ensures IsWord(Printed(name)) && |Printed(name)| <= 2 * MAX_NAME + 2
    ensures Printed(name) != [] && Printed(name)[0] != ' ' && Printed(name)[|Printed(name)| - 1] != ' '
  {
    DoubledLength(name);
    if '\\' in name {
      DoubledIsQuotedBody(name);
      var p := Printed(name);
      assert p[1..|p| - 1] == Doubled(name);
    } else {
      UnescapedIsPlain(name);
    }
  }

  ghost predicate AllValid(names: seq<string>) {
    forall i :: 0 <= i < |names| ==> ValidDependency(names[i])
  }

  ghost predicate AllPrintable(names: seq<string>) {
    forall i :: 0 <= i < |names| ==> Printable(names[i])
  }

  lemma OneIsWords(w: string)
    requires IsWord(w)
    ensures AreWords(w)
  {
    assert w[..|w|] == w && w != [];
  }

  lemma WordsCons(w: string, rest: string)
    requires IsWord(w) && AreWords(rest)
    ensures AreWords(w + [' '] + rest)
  {
    var s := w + [' '] + rest;
    var k := |w|;
    assert s[..k] == w && s[k + 1..] == rest && s[k] == ' ' && rest != [];
    assert forall i :: k <= i < k + 1 ==> s[i] == ' ';
    assert k < k + 1 < |s|;
  }

  lemma {:induction false} ListAreWords(names: seq<string>)
    requires names != [] && AllPrintable(names)
    ensures AreWords(PrintedList(names))
    decreases |names|
  {
    PrintedIsWord(names[0]);
    if |names| == 1 {
      OneIsWords(Printed(names[0]));
    } else {
      ListAreWords(names[1..]);
      WordsCons(Printed(names[0]), PrintedList(names[1..]));
    }
  }

  lemma {:induction false} ListLength(names: seq<string>)
    requires names != [] && AllPrintable(names)
    ensures |PrintedList(names)| < 513 * |names|
    decreases |names|
  {
    PrintedIsWord(names[0]);
    assert 2 * MAX_NAME + 3 == 513;
    if |names| > 1 {
      ListLength(names[1..]);
    }
  }

  lemma {:induction false} ListEnds(names: seq<string>)
    requires names != [] && AllPrintable(names)
    ensures var p := PrintedList(names); p != [] && p[0] != ' ' && p[|p| - 1] != ' '
    decreases |names|
  {
    PrintedIsWord(names[0]);
    if |names| > 1 {
      ListEnds(names[1..]);
    }
  }

  lemma AllValidPrintable(names: seq<string>)
    requires AllValid(names)
    ensures AllPrintable(names)
  {
    forall i | 0 <= i < |names| { ValidIsPrintable(names[i]); }
  }

  // ---------- reading undoes printing ----------

  lemma {:induction false} LexPlain(s: string, rest: string, token: string)
    requires forall i :: 0 <= i < |s| ==> Plain(s[i])
    ensures Lex(s + rest, InWord, token, false) == Lex(rest, InWord, token + s, false)
    decreases |s|
  {
    if s == [] {
      assert s + rest == rest && token + s == token;
    } else {
      assert (s + rest)[0] == s[0] && (s + rest)[1..] == s[1..] + rest;
      LexPlain(s[1..], rest, token + [s[0]]);
      assert token + [s[0]] + s[1..] == token + s;
    }
  }

  lemma LexQuoteSteps(c: char, rest: string, token: string)
    requires c != '"' && c != '\\'
    ensures Lex(['"'] + rest, Between, [], false) == Lex(rest, InQuote('"'), [], true)
    ensures Lex([c] + rest, InQuote('"'), token, true) == Lex(rest, InQuote('"'), token + [c], true)
    ensures Lex(['"'] + rest, InQuote('"'), token, true) == Lex(rest, InWord, token, true)
  {
    assert (['"'] + rest)[1..] == rest && ([c] + rest)[1..] == rest;
  }

  lemma LexBackslashes(rest: string, token: string)
    ensures Lex(['\\', '\\'] + rest, InQuote('"'), token, true) == Lex(rest, InQuote('"'), token + ['\\'], true)
  {
    var text := ['\\', '\\'] + rest;
    assert text[1..] == ['\\'] + rest && text[1..][1..] == rest;
    assert Lex(text, InQuote('"'), token, true) == Lex(text[1..], Escaped(true), token, true);
    assert token + [] + ['\\'] == token + ['\\'];
  }

  /** One character of the name, one or two of its quoted form. */
  lemma LexDoubledStep(s: string, rest: string, token: string)
    requires s != [] && '"' !in s
    ensures Lex(Doubled(s) + rest, InQuote('"'), token, true)
            == Lex(Doubled(s[1..]) + rest, InQuote('"'), token + [s[0]], true)
  {
    var more := Doubled(s[1..]) + rest;
    if s[0] == '\\' {
      assert Doubled(s) + rest == ['\\', '\\'] + more;
      LexBackslashes(more, token);
    } else {
      assert Doubled(s) + rest == [s[0]] + more;
      LexQuoteSteps(s[0], more, token);
    }
  }

  lemma {:induction false} LexDoubled(s: string, rest: string, token: string)
    requires '"' !in s
    ensures Lex(Doubled(s) + rest, InQuote('"'), token, true) == Lex(rest, InQuote('"'), token + s, true)
    decreases |s|
  {
    if s == [] {
      assert Doubled(s) + rest == rest && token + s == token;
    } else {
      LexDoubledStep(s, rest, token);
      LexDoubled(s[1..], rest, token + [s[0]]);
      assert token + [s[0]] + s[1..] == token + s;
    }
  }

  lemma {:induction false} BodyHasNoQuote(s: string)
    requires IsBody(s)
    ensures '"' !in s
    decreases |s|
  {
    if s != [] {
      if Plain(s[0]) && IsBody(s[1..]) {
        BodyHasNoQuote(s[1..]);
        assert s == [s[0]] + s[1..];
      } else {
        BodyHasNoQuote(s[4..]);
        assert s == ['\\', 'x', s[2], s[3]] + s[4..];
      }
    }
  }

  /** The end of a word, at the end of the text or at a space. */
  function Emitted(name: string, rest: string): Option<seq<string>> {
    if rest == [] then Some([name])
    else
      var more := Lex(rest[1..], Between, [], false);
      if more.None? then None else Some([name] + more.value)
  }

  lemma LexEnd(name: string, rest: string, quoted: bool)
    requires name != [] && (rest == [] || rest[0] == ' ')
    ensures Lex(rest, InWord, name, quoted) == Emitted(name, rest)
  {
  }

  lemma LexQuoted(name: string, rest: string)
    requires name != [] && '"' !in name && (rest == [] || rest[0] == ' ')
    ensures Lex(['"'] + Doubled(name) + ['"'] + rest, Between, [], false) == Emitted(name, rest)
  {
    assert ['"'] + Doubled(name) + ['"'] + rest == ['"'] + (Doubled(name) + (['"'] + rest));
    LexQuoteSteps('x', Doubled(name) + (['"'] + rest), []);
    LexDoubled(name, ['"'] + rest, []);
    assert [] + name == name;
    LexQuoteSteps('x', rest, name);
    LexEnd(name, rest, true);
  }

  lemma LexBare(name: string, rest: string)
    requires name != [] && (rest == [] || rest[0] == ' ') && forall i :: 0 <= i < |name| ==> Plain(name[i])
    ensures Lex(name + rest, Between, [], false) == Emitted(name, rest)
  {
    var text := name + rest;
    assert text[0] == name[0] && text[1..] == name[1..] + rest;
    LexPlain(name[1..], rest, [name[0]]);
    assert [name[0]] + name[1..] == name;
    LexEnd(name, rest, false);
  }

  /** One printed name is read as one token. */
  lemma LexPrinted(name: string, rest: string)
    requires Printable(name) && (rest == [] || rest[0] == ' ')
    ensures Lex(Printed(name) + rest, Between, [], false) == Emitted(name, rest)
  {
    if '\\' in name {
      BodyHasNoQuote(name);
      LexQuoted(name, rest);
    } else {
      UnescapedIsPlain(name);
      LexBare(name, rest);
    }
  }

  lemma LexOne(name: string)
    requires Printable(name)
    ensures Lex(Printed(name), Between, [], false) == Some([name])
  {
    LexPrinted(name, []);
    assert Printed(name) + [] == Printed(name);
  }

  lemma LexCons(name: string, text: string, names: seq<string>)
    requires Printable(name) && Lex(text, Between, [], false) == Some(names)
    ensures Lex(Printed(name) + [' '] + text, Between, [], false) == Some([name] + names)
  {
    LexPrinted(name, [' '] + text);
    assert Printed(name) + ([' '] + text) == Printed(name) + [' '] + text;
    assert ([' '] + text)[1..] == text;
  }

  lemma {:induction false} LexList(names: seq<string>)
    requires names != [] && AllPrintable(names)
    ensures Lex(PrintedList(names), Between, [], false) == Some(names)
    decreases |names|
  {
    if |names| == 1 {
      LexOne(names[0]);
      assert [names[0]] == names;
    } else {
      LexList(names[1..]);
      LexCons(names[0], PrintedList(names[1..]), names[1..]);
      assert [names[0]] + names[1..] == names;
    }
  }

  /** For every list of valid names, parsing what systemd prints yields its names, sorted and without repetition. */
  lemma ParseUndoesPrinting(names: seq<string>)
    requires |names| <= MAX_UNITS && AllValid(names)
    ensures Parse(PrintedList(names)) == Accepted(SortUnique(names))
  {
    if names == [] {
      assert StripRight(StripLeft([])) == [];
    } else {
      AllValidPrintable(names);
      PrintedIsParsed(names);
    }
  }

  lemma PrintedIsParsed(names: seq<string>)
    requires 0 < |names| <= MAX_UNITS && AllPrintable(names) && AllValid(names)
    ensures Parse(PrintedList(names)) == Accepted(SortUnique(names))
  {
    assert Legible(PrintedList(names), names) by {
      ListAreWords(names);
      ListLength(names);
      ListEnds(names);
      LexList(names);
    }
    ParseWords(PrintedList(names), names);
  }

  ghost predicate Legible(text: string, names: seq<string>) {
    && text != [] && text[0] != ' ' && text[|text| - 1] != ' ' && |text| <= MAX_UNITS * (2 * MAX_NAME + 3)
    && AreWords(text) && Lex(text, Between, [], false) == Some(names)
  }

  /** Text that needs no stripping is parsed by its tokens alone. */
  lemma ParseWords(text: string, names: seq<string>)
    requires Legible(text, names) && |names| <= MAX_UNITS && AllValid(names)
    ensures Parse(text) == Accepted(SortUnique(names))
  {
    NothingToStrip(text);
    ParsesTokens(text, names);
    TokensAreAccepted(names);
  }

  lemma NothingToStrip(text: string)
    requires text != [] && text[0] != ' ' && text[|text| - 1] != ' '
    ensures StripRight(StripLeft(text)) == text
  {
  }

  lemma ParsesTokens(text: string, names: seq<string>)
    requires text != [] && AreWords(text) && Lex(text, Between, [], false) == Some(names)
    ensures ParseText(text) == ParseTokens(names)
  {
  }

  lemma TokensAreAccepted(names: seq<string>)
    requires |names| <= MAX_UNITS && AllValid(names)
    ensures ParseTokens(names) == Accepted(SortUnique(names))
  {
  }

  lemma {:induction false} InsertNoLonger(s: seq<string>, x: string)
    ensures |Insert(s, x)| <= |s| + 1
  {
    if s != [] {
      InsertNoLonger(s[1..], x);
    }
  }

  lemma {:induction false} SortUniqueNoLonger(names: seq<string>)
    ensures |SortUnique(names)| <= |names|
  {
    if names != [] {
      SortUniqueNoLonger(names[1..]);
      InsertNoLonger(SortUnique(names[1..]), names[0]);
    }
  }

  /** Whatever is accepted is a sorted list of valid names, and printing it is a normal form of the input. */
  lemma ParsedIsNormal(value: string)
    requires Parse(value).Accepted?
    ensures var r := Parse(value).value;
            Ascending(r) && |r| <= MAX_UNITS && AllValid(r) && Parse(PrintedList(r)) == Parse(value)
  {
    var text := StripRight(StripLeft(value));
    if text != [] {
      var names := Lex(text, Between, [], false).value;
      var r := Parse(value).value;
      SortUniqueIsSorted(names);
      SortUniqueNoLonger(names);
      forall i | 0 <= i < |r|
        ensures ValidDependency(r[i])
      {
        assert r[i] in r && r[i] in names;
      }
      ParseUndoesPrinting(r);
      SortedIsFixed(r);
    }
  }
}
