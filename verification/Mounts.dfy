/**
 The mount lookup that decides whether an etcd snapshot would be written to unswappable memory: reading the
 kernel's mount table, undoing its octal escapes, and choosing the visible mount that covers a path.
 */
module Mounts {
  import opened Wrappers
  import opened Sequences
  import opened Texts

  // ---------- escaping ----------

  /** Octal code of an escaped character: backslash and three digits. */
  function Code(c: char): (code: string)
    requires Special(c)
    ensures |code| == 4 && code[0] == '\\' && code[1] != '\\' && code[2] != '\\' && code[3] != '\\'
  {
    ['\\'] + match c
    case ' ' => ['0', '4', '0']
    case '\t' => ['0', '1', '1']
    case '\n' => ['0', '1', '2']
    case _ => ['1', '3', '4']
  }

  predicate Special(c: char) { c == ' ' || c == '\t' || c == '\n' || c == '\\' }

  /** `path` with the characters of `escaped` written as octal codes. */
  function EscapeOnly(path: string, escaped: set<char>): string
    requires forall c :: c in escaped ==> Special(c)
  {
    if path == [] then []
    else (if path[0] in escaped then Code(path[0]) else [path[0]]) + EscapeOnly(path[1..], escaped)
  }

  /** How the kernel prints a mount point. */
  function Escape(path: string): string { EscapeOnly(path, {' ', '\t', '\n', '\\'}) }

  /** `str.replace` of a four-character pattern by one character. */
  function Replace(s: string, pattern: string, c: char): string
    requires |pattern| == 4
  {
    if s == [] then []
    else if pattern <= s then [c] + Replace(s[4..], pattern, c)
    else [s[0]] + Replace(s[1..], pattern, c)
  }

  function Unescape(s: string): string {
    Replace(Replace(Replace(s, Code(' '), ' '), Code('\t'), '\t'), Code('\\'), '\\')
  }

  /** While backslashes are still escaped, replacing one code restores exactly its character. */
  lemma {:induction false} ReplaceUndoesOne(path: string, escaped: set<char>, c: char)
    requires (forall x :: x in escaped ==> Special(x)) && '\\' in escaped && c in escaped
    ensures Replace(EscapeOnly(path, escaped), Code(c), c) == EscapeOnly(path, escaped - {c})
  {
    if path != [] {
      var d, more := path[0], EscapeOnly(path[1..], escaped);
      ReplaceUndoesOne(path[1..], escaped, c);
      if d == c {
        ReplaceMatch(more, c);
      } else if d in escaped {
        CodesDiffer(c, d);
        SkipCode(Code(d), more, Code(c), c);
      } else {
        assert ([d] + more)[0] != Code(c)[0];
        assert ([d] + more)[1..] == more;
      }
    }
  }

  lemma CodesDiffer(c: char, d: char)
    requires Special(c) && Special(d) && c != d
    ensures Code(c) != Code(d)
  {
    assert Code(c)[2] != Code(d)[2] || Code(c)[3] != Code(d)[3];
  }

  lemma ReplaceMatch(more: string, c: char)
    requires Special(c)
    ensures Replace(Code(c) + more, Code(c), c) == [c] + Replace(more, Code(c), c)
  {
    assert (Code(c) + more)[4..] == more;
  }

  lemma SkipCode(code: string, more: string, pattern: string, c: char)
    requires |code| == |pattern| == 4 && code != pattern && pattern[0] == '\\'
    requires code[1] != '\\' && code[2] != '\\' && code[3] != '\\'
    ensures Replace(code + more, pattern, c) == code + Replace(more, pattern, c)
  {
    var s := code + more;
    assert !(pattern <= s) by { assert s[..4] == code; }
    assert s[1..] == code[1..] + more;
    SkipTail(code[1..], more, pattern, c);
    assert [code[0]] + (code[1..] + Replace(more, pattern, c)) == code + Replace(more, pattern, c);
  }

  lemma {:induction false} SkipTail(tail: string, more: string, pattern: string, c: char)
    requires |pattern| == 4 && forall i :: 0 <= i < |tail| ==> tail[i] != pattern[0]
    ensures Replace(tail + more, pattern, c) == tail + Replace(more, pattern, c)
  {
    if tail == [] {
      assert tail + more == more;
    } else {
      SkipTail(tail[1..], more, pattern, c);
      FirstAndRest(tail);
      Associative([tail[0]], tail[1..], more);
      SkipOne(tail[0], tail[1..] + more, pattern, c);
      Associative([tail[0]], tail[1..], Replace(more, pattern, c));
    }
  }

  lemma SkipOne(d: char, more: string, pattern: string, c: char)
    requires |pattern| == 4 && d != pattern[0]
    ensures Replace([d] + more, pattern, c) == [d] + Replace(more, pattern, c)
  {
    assert ([d] + more)[1..] == more;
  }

  lemma {:induction false} EscapingGrows(path: string, escaped: set<char>)
    requires forall x :: x in escaped ==> Special(x)
    ensures |EscapeOnly(path, escaped)| >= |path|
    ensures (EscapeOnly(path, escaped) == path) <==> forall c :: c in path ==> c !in escaped
  {
    if path != [] {
      EscapingGrows(path[1..], escaped);
      assert path == [path[0]] + path[1..];
      if path[0] in escaped {
        assert |EscapeOnly(path, escaped)| > |path|;
      } else {
        assert EscapeOnly(path, escaped)[1..] == EscapeOnly(path[1..], escaped);
        assert forall c :: c in path <==> c == path[0] || c in path[1..];
      }
    }
  }

  /** The three replacements leave exactly newlines escaped. */
  lemma UnescapeShows(path: string)
    ensures Unescape(Escape(path)) == EscapeOnly(path, {'\n'})
  {
    var all := {' ', '\t', '\n', '\\'};
    ReplaceUndoesOne(path, all, ' ');
    ReplaceUndoesOne(path, all - {' '}, '\t');
    ReplaceUndoesOne(path, all - {' '} - {'\t'}, '\\');
    assert all - {' '} - {'\t'} - {'\\'} == {'\n'};
  }

  /** The three replacements undo the kernel's escaping exactly for paths without a newline. */
  lemma UnescapeUndoes(path: string)
    ensures Unescape(Escape(path)) == path <==> '\n' !in path
  {
    UnescapeShows(path);
    EscapingGrows(path, {'\n'});
  }

  // ---------- covering ----------

  function StripSlashes(s: string): string {
    if s != [] && s[|s| - 1] == '/' then StripSlashes(s[..|s| - 1]) else s
  }

  /** The covering test of the lookup, on strings. */
  predicate Covers(mount: string, target: string) {
    target == mount || StripSlashes(mount) + ['/'] <= target
  }

  /** A path as its components. */
  type Components = cs: seq<string> | forall c :: c in cs ==> c != [] && '/' !in c

  function Join(cs: Components): string {
    if cs == [] then [] else ['/'] + cs[0] + Join(cs[1..])
  }

  function Path(cs: Components): string { if cs == [] then ['/'] else Join(cs) }

  lemma {:induction false} JoinEnds(cs: Components)
    requires cs != []
    ensures Join(cs) != [] && Join(cs)[0] == '/' && Join(cs)[|Join(cs)| - 1] != '/'
  {
    assert cs[0] in cs;
    if |cs| == 1 {
      assert Join(cs) == ['/'] + cs[0];
      assert cs[0][|cs[0]| - 1] in cs[0];
    } else {
      JoinEnds(cs[1..]);
    }
  }

  lemma StripPath(cs: Components)
    ensures StripSlashes(Path(cs)) == Join(cs)
  {
    if cs != [] {
      JoinEnds(cs);
    } else {
      assert Path(cs)[..0] == [];
    }
  }

  /** Text after a component is empty or starts with a slash. */
  predicate AtBoundary(s: string) { s != [] ==> s[0] == '/' }

  lemma SameComponent(a: string, x: string, b: string, y: string)
    requires '/' !in a && '/' !in b && AtBoundary(x) && AtBoundary(y)
    requires a + x <= b + y && (x != [] || a + x == b + y)
    ensures a == b && x <= y
  {
    assert x != [] ==> (b + y)[|a|] == (a + x)[|a|] == '/';
    assert y != [] && |b| < |a + x| ==> (a + x)[|b|] == (b + y)[|b|] == '/';
    assert (a + x)[..|a|] == a && (b + y)[..|b|] == b;
    assert (a + x)[|a|..] == x && (b + y)[|b|..] == y;
  }

  predicate Leads(m: Components, t: Components) { Join(m) == Join(t) || Join(m) + ['/'] <= Join(t) }

  lemma LeadsStep(m: Components, t: Components)
    requires m != [] && t != []
    ensures Leads(m, t) <==> m[0] == t[0] && Leads(m[1..], t[1..])
  {
    var a, x, b, y := m[0], Join(m[1..]), t[0], Join(t[1..]);
    assert a in m && b in t;
    if m[1..] != [] { JoinEnds(m[1..]); }
    if t[1..] != [] { JoinEnds(t[1..]); }
    assert Join(m) == ['/'] + (a + x) && Join(t) == ['/'] + (b + y);
    assert Join(m) + ['/'] == ['/'] + (a + (x + ['/']));
    DropSlash(a + x, b + y);
    DropSlash(a + (x + ['/']), b + y);
    if Join(m) == Join(t) {
      SameComponent(a, x, b, y);
      assert x == y;
    } else if Join(m) + ['/'] <= Join(t) {
      SameComponent(a, x + ['/'], b, y);
    }
  }

  lemma DropSlash(s: string, t: string)
    ensures ['/'] + s == ['/'] + t <==> s == t
    ensures ['/'] + s <= ['/'] + t <==> s <= t
  {
    assert (['/'] + s)[1..] == s && (['/'] + t)[1..] == t;
    if ['/'] + s <= ['/'] + t {
      assert (['/'] + t)[..1 + |s|][1..] == t[..|s|];
    }
  }

  lemma {:induction false} LeadsIsPrefix(m: Components, t: Components)
    ensures Leads(m, t) <==> m <= t
  {
    if m == [] {
      if t != [] { JoinEnds(t); }
    } else if t == [] {
      JoinEnds(m);
    } else {
      LeadsStep(m, t);
      LeadsIsPrefix(m[1..], t[1..]);
      PrefixStep(m, t);
    }
  }

  lemma PrefixStep<T>(m: seq<T>, t: seq<T>)
    requires m != [] && t != []
    ensures m <= t <==> m[0] == t[0] && m[1..] <= t[1..]
  {
    assert m == [m[0]] + m[1..] && t == [t[0]] + t[1..];
    if m <= t { assert t[..|m|][1..] == t[1..][..|m| - 1]; }
  }

  /** The string test means that the mount point's components lead the target's: the target is at or below it. */
  lemma CoversIsPrefix(m: Components, t: Components)
    ensures Covers(Path(m), Path(t)) <==> m <= t
  {
    StripPath(m);
    LeadsIsPrefix(m, t);
    if m != [] { JoinEnds(m); }
    if t != [] { JoinEnds(t); }
  }

  lemma {:induction false} LongerPath(a: Components, b: Components)
    requires a <= b
    ensures |Join(a)| <= |Join(b)| && (|a| < |b| ==> |Path(a)| < |Path(b)|)
  {
    if a == [] {
      if b != [] { assert b[0] in b; }
    } else {
      LongerPath(a[1..], b[1..]);
    }
  }

  // ---------- the mount table ----------

  /** `str.splitlines()`. */
  function Lines(text: string): seq<string>
    decreases |text|
  {
    if text == [] then []
    else
      var line := Until(text, LineBreak);
      var rest := text[|line|..];
      if rest == [] then [line]
      else [line] + Lines(if |rest| > 1 && rest[0] == '\r' && rest[1] == '\n' then rest[2..] else rest[1..])
  }

  /** `str.split()`. */
  function Fields(line: string): seq<string>
    decreases |line|
  {
    if line == [] then []
    else if White(line[0]) then Fields(line[1..])
    else
      var word := Until(line, White);
      [word] + Fields(line[|word|..])
  }

  predicate Comma(c: char) { c == ',' }

  /** `set(field.split(','))`. */
  function OptionSet(field: string): set<string>
    decreases |field|
  {
    var first := Until(field, Comma);
    if |first| == |field| then {first} else {first} + OptionSet(field[|first| + 1..])
  }

  /** Whether a row of fields describes a mount covering the target. */
  predicate RowCovers(fields: seq<string>, target: string) { |fields| >= 4 && Covers(Unescape(fields[1]), target) }

  ghost predicate Uncovered(lines: seq<string>, target: string) {
    forall k {:trigger lines[k]} | 0 <= k < |lines| :: !RowCovers(Fields(lines[k]), target)
  }

  /** Line `k` is the visible mount: no covering line has a longer mount point, or one as long and comes later. */
  ghost predicate Visible(lines: seq<string>, target: string, k: nat) {
    && k < |lines| && RowCovers(Fields(lines[k]), target)
    && forall j {:trigger lines[j]} | 0 <= j < |lines| && RowCovers(Fields(lines[j]), target) ::
         var a, b := |Unescape(Fields(lines[j])[1])|, |Unescape(Fields(lines[k])[1])|;
         a < b || (a == b && j <= k)
  }

  /** The filesystem kind and option set of a line. */
  function Described(line: string): (string, set<string>) {
    var fields := Fields(line);
    if |fields| >= 4 then (fields[2], OptionSet(fields[3])) else ([], {})
  }

  datatype Row = Row(length: nat, order: nat, kind: string, options: set<string>)

  method CoveringRows(target: string, lines: seq<string>) returns (rows: seq<Row>)
    ensures forall i :: 0 <= i < |rows| ==> IsRow(lines, target, rows[i])
    ensures forall k :: 0 <= k < |lines| && RowCovers(Fields(lines[k]), target) ==> Has(rows, k)
  {
    rows := [];
    for order := 0 to |lines|
      invariant forall i :: 0 <= i < |rows| ==> IsRow(lines, target, rows[i])
      invariant forall k :: 0 <= k < order && RowCovers(Fields(lines[k]), target) ==> Has(rows, k)
    {
      var fields := Fields(lines[order]);
      if |fields| < 4 {
        continue;
      }
      var mount := Unescape(fields[1]);
      if target == mount || StripSlashes(mount) + ['/'] <= target {
        var row := Row(|mount|, order, fields[2], OptionSet(fields[3]));
        forall k ensures Has(rows, k) || k == order ==> Has(rows + [row], k) { Appended(rows, row, k); }
        rows := rows + [row];
      }
    }
  }

  /** The row that is greatest by length, then by position. */
  method Highest(rows: seq<Row>) returns (best: Row)
    requires rows != []
    ensures best in rows && forall j :: 0 <= j < |rows| ==> NotAbove(rows[j], best)
  {
    best := rows[0];
    for i := 1 to |rows|
      invariant best in rows && forall j :: 0 <= j < i ==> NotAbove(rows[j], best)
    {
      if !NotAbove(rows[i], best) {
        best := rows[i];
      }
    }
  }

  /** `mounts_for`, on the resolved target path. */
  method MountsFor(target: string, text: string) returns (r: Result<(string, set<string>)>)
    ensures r.Refused? <==> Uncovered(Lines(text), target)
    ensures r.Accepted? ==> exists k: nat :: Visible(Lines(text), target, k) && r.value == Described(Lines(text)[k])
  {
    var rows := CoveringRows(target, Lines(text));
    if rows == [] {
      return Refused;
    }
    var best := Highest(rows);
    HighestIsVisible(Lines(text), target, rows, best);
    return Accepted((best.kind, best.options));
  }

  lemma HighestIsVisible(lines: seq<string>, target: string, rows: seq<Row>, best: Row)
    requires forall i :: 0 <= i < |rows| ==> IsRow(lines, target, rows[i])
    requires forall k :: 0 <= k < |lines| && RowCovers(Fields(lines[k]), target) ==> Has(rows, k)
    requires best in rows && forall j :: 0 <= j < |rows| ==> NotAbove(rows[j], best)
    ensures !Uncovered(lines, target) && Visible(lines, target, best.order)
            && (best.kind, best.options) == Described(lines[best.order])
  {
    forall j | 0 <= j < |lines| && RowCovers(Fields(lines[j]), target)
      ensures var a, b := |Unescape(Fields(lines[j])[1])|, best.length;
              a < b || (a == b && j <= best.order)
    {
      var i :| 0 <= i < |rows| && rows[i].order == j;
      assert IsRow(lines, target, rows[i]) && NotAbove(rows[i], best);
    }
  }

  ghost predicate Has(rows: seq<Row>, k: int) { exists i :: 0 <= i < |rows| && rows[i].order == k }

  lemma Appended(rows: seq<Row>, row: Row, k: int)
    ensures Has(rows, k) || k == row.order ==> Has(rows + [row], k)
  {
    assert (rows + [row])[|rows|] == row;
    if Has(rows, k) {
      var i :| 0 <= i < |rows| && rows[i].order == k;
      assert (rows + [row])[i] == rows[i];
    }
  }

  /** Ordered by length, then by position. */
  predicate NotAbove(a: Row, b: Row) { a.length < b.length || (a.length == b.length && a.order <= b.order) }

  ghost predicate IsRow(lines: seq<string>, target: string, row: Row) {
    && row.order < |lines| && RowCovers(Fields(lines[row.order]), target)
    && var fields := Fields(lines[row.order]);
       row == Row(|Unescape(fields[1])|, row.order, fields[2], OptionSet(fields[3]))
  }

  // ---------- what the lookup means for a table the kernel prints ----------

  datatype Mount = Mount(device: string, path: Components, kind: string, options: seq<string>)

  function OptionsOf(m: Mount): set<string> { set o | o in m.options }

  predicate Plain(s: string) { s != [] && forall i :: 0 <= i < |s| ==> !White(s[i]) }

  function OptionText(options: seq<string>): string {
    if options == [] then [] else if |options| == 1 then options[0] else options[0] + ([','] + OptionText(options[1..]))
  }

  function Spaced(words: seq<string>): string
    requires words != []
  {
    if |words| == 1 then words[0] else words[0] + ([' '] + Spaced(words[1..]))
  }

  function Words(m: Mount): seq<string> {
    [m.device, Escape(Path(m.path)), m.kind, OptionText(m.options), ['0'], ['0']]
  }

  function RowText(m: Mount): string { Spaced(Words(m)) }

  function Table(mounts: seq<Mount>): string {
    if mounts == [] then [] else RowText(mounts[0]) + (['\n'] + Table(mounts[1..]))
  }

  /** Rows whose printed fields hold no separator. */
  ghost predicate Separable(m: Mount) {
    && Plain(m.device) && Plain(m.kind) && Plain(OptionText(m.options))
    && m.options != [] && (forall o :: o in m.options ==> ',' !in o)
    && (forall c :: c in Path(m.path) ==> White(c) ==> c == ' ' || c == '\t' || c == '\n')
  }

  /** A mount point as the lookup sees it: with newlines still escaped. */
  function Shown(cs: Components): (r: Components)
    ensures |r| == |cs| && forall i :: 0 <= i < |cs| ==> r[i] == EscapeOnly(cs[i], {'\n'})
  {
    if cs == [] then []
    else
      assert cs[0] in cs;
      ShownComponent(cs[0]);
      [EscapeOnly(cs[0], {'\n'})] + Shown(cs[1..])
  }

  lemma {:induction false} ShownComponent(c: string)
    requires '/' !in c
    ensures '/' !in EscapeOnly(c, {'\n'}) && (c != [] ==> EscapeOnly(c, {'\n'}) != [])
  {
    if c != [] {
      ShownComponent(c[1..]);
      CodeHasNoSlash();
    }
  }

  lemma CodeHasNoSlash()
    ensures '/' !in Code('\n')
  {
  }

  lemma {:induction false} EscapeConcat(a: string, b: string, escaped: set<char>)
    requires forall c :: c in escaped ==> Special(c)
    ensures EscapeOnly(a + b, escaped) == EscapeOnly(a, escaped) + EscapeOnly(b, escaped)
  {
    if a == [] {
      assert a + b == b;
    } else {
      EscapeConcat(a[1..], b, escaped);
      assert (a + b)[1..] == a[1..] + b;
    }
  }

  /** Escaping the whole path is escaping its components. */
  lemma {:induction false} ShownJoin(cs: Components)
    ensures EscapeOnly(Join(cs), {'\n'}) == Join(Shown(cs))
  {
    if cs != [] {
      var rest := cs[1..];
      ShownJoin(rest);
      EscapeConcat(['/'] + cs[0], Join(rest), {'\n'});
      EscapeConcat(['/'], cs[0], {'\n'});
      assert EscapeOnly(['/'], {'\n'}) == ['/'];
      assert Shown(cs)[1..] == Shown(rest);
    }
  }

  lemma ShownPath(cs: Components)
    ensures EscapeOnly(Path(cs), {'\n'}) == Path(Shown(cs))
  {
    ShownJoin(cs);
    assert EscapeOnly(['/'], {'\n'}) == ['/'];
  }

  function PathsOf(mounts: seq<Mount>): (r: seq<Components>)
    ensures |r| == |mounts| && forall i :: 0 <= i < |r| ==> r[i] == mounts[i].path
  {
    if mounts == [] then [] else [mounts[0].path] + PathsOf(mounts[1..])
  }

  function ShownPaths(mounts: seq<Mount>): (r: seq<Components>)
    ensures |r| == |mounts| && forall i :: 0 <= i < |r| ==> r[i] == Shown(mounts[i].path)
  {
    if mounts == [] then [] else [Shown(mounts[0].path)] + ShownPaths(mounts[1..])
  }

  /** Deeper than, or as deep and later. */
  predicate Above(paths: seq<Components>, k: nat, j: nat)
    requires k < |paths| && j < |paths|
  {
    |paths[j]| < |paths[k]| || (|paths[j]| == |paths[k]| && j < k)
  }

  /** Path `k` is the deepest at or above the target, and the latest of those. */
  ghost predicate Topmost(paths: seq<Components>, target: Components, k: nat) {
    && k < |paths| && paths[k] <= target
    && forall j :: 0 <= j < |paths| && paths[j] <= target ==> j == k || Above(paths, k, j)
  }

  /** Mount `k` is what the target sees. */
  ghost predicate VisibleMount(mounts: seq<Mount>, target: Components, k: nat) { Topmost(PathsOf(mounts), target, k) }

  lemma FieldsWord(w: string, rest: string)
    requires Plain(w) && (rest != [] ==> White(rest[0]))
    ensures Fields(w + rest) == [w] + Fields(rest)
  {
    UntilStops(w, rest, White);
    assert (w + rest)[|w|..] == rest;
  }

  lemma FieldsSpace(rest: string)
    ensures Fields([' '] + rest) == Fields(rest)
  {
    assert ([' '] + rest)[1..] == rest;
  }

  lemma {:induction false} EscapedIsPlain(path: string, all: set<char>)
    requires all == {' ', '\t', '\n', '\\'}
    requires forall c :: c in path ==> White(c) ==> c == ' ' || c == '\t' || c == '\n'
    ensures forall i :: 0 <= i < |EscapeOnly(path, all)| ==> !White(EscapeOnly(path, all)[i])
  {
    if path != [] {
      assert path[0] in path;
      EscapedIsPlain(path[1..], all);
    }
  }

  lemma {:induction false} SpacedFields(words: seq<string>)
    requires words != [] && forall w :: w in words ==> Plain(w)
    ensures Fields(Spaced(words)) == words
  {
    assert words[0] in words;
    if |words| == 1 {
      FieldsWord(words[0], []);
      assert words[0] + [] == words[0];
    } else {
      FieldsWord(words[0], [' '] + Spaced(words[1..]));
      FieldsSpace(Spaced(words[1..]));
      SpacedFields(words[1..]);
    }
  }

  lemma RowIsPlain(m: Mount)
    requires Separable(m)
    ensures Fields(RowText(m)) == Words(m)
    ensures forall i :: 0 <= i < |RowText(m)| ==> !LineBreak(RowText(m)[i])
  {
    EscapedIsPlain(Path(m.path), {' ', '\t', '\n', '\\'});
    EscapingGrows(Path(m.path), {' ', '\t', '\n', '\\'});
    PathNotEmpty(m.path);
    SpacedFields(Words(m));
    SpacedHasNoBreak(Words(m));
  }

  lemma {:induction false} OptionsRead(options: seq<string>)
    requires options != [] && forall o :: o in options ==> ',' !in o
    ensures forall o :: o in OptionSet(OptionText(options)) <==> o in options
  {
    assert options[0] in options;
    if |options| == 1 {
      UntilStops(options[0], [], Comma);
      assert options[0] + [] == options[0];
    } else {
      OptionStep(options[0], OptionText(options[1..]));
      OptionsRead(options[1..]);
      assert forall o :: o in options <==> o == options[0] || o in options[1..];
    }
  }

  lemma OptionStep(first: string, more: string)
    requires ',' !in first
    ensures OptionSet(first + ([','] + more)) == {first} + OptionSet(more)
  {
    var field := first + ([','] + more);
    UntilStops(first, [','] + more, Comma);
    assert field[|first| + 1..] == more;
  }

  lemma LinesRow(line: string, rest: string)
    requires forall i :: 0 <= i < |line| ==> !LineBreak(line[i])
    ensures Lines(line + (['\n'] + rest)) == [line] + Lines(rest)
  {
    UntilStops(line, ['\n'] + rest, LineBreak);
    assert (line + (['\n'] + rest))[|line|..] == ['\n'] + rest;
    assert (['\n'] + rest)[1..] == rest;
  }

  lemma {:induction false} SpacedHasNoBreak(words: seq<string>)
    requires words != [] && forall w :: w in words ==> Plain(w)
    ensures forall i :: 0 <= i < |Spaced(words)| ==> !LineBreak(Spaced(words)[i])
  {
    assert words[0] in words;
    if |words| > 1 {
      SpacedHasNoBreak(words[1..]);
    }
  }

  lemma {:induction false} TableLines(mounts: seq<Mount>)
    requires forall m :: m in mounts ==> Separable(m)
    ensures |Lines(Table(mounts))| == |mounts|
    ensures forall k :: 0 <= k < |mounts| ==> Lines(Table(mounts))[k] == RowText(mounts[k])
  {
    if mounts != [] {
      var m := mounts[0];
      assert m in mounts;
      RowIsPlain(m);
      LinesRow(RowText(m), Table(mounts[1..]));
      TableLines(mounts[1..]);
    }
  }

  /** A printed row is read back: its shown mount point, kind and options, and it covers what lies at or below that. */
  lemma RowRead(m: Mount, target: Components)
    requires Separable(m)
    ensures IsRead(RowText(m), m, target)
  {
    RowIsPlain(m);
    OptionsRead(m.options);
    assert OptionSet(OptionText(m.options)) == OptionsOf(m);
    UnescapeShows(Path(m.path));
    ShownPath(m.path);
    CoversIsPrefix(Shown(m.path), target);
  }

  /** Among mounts at or above one target, deeper means a longer printed path. */
  lemma DepthIsLength(a: Components, b: Components, target: Components)
    requires a <= target && b <= target
    ensures |a| < |b| <==> |Path(a)| < |Path(b)|
    ensures |a| == |b| <==> |Path(a)| == |Path(b)|
    ensures |a| == |b| ==> a == b
  {
    if |a| <= |b| {
      assert a == target[..|a|] == b[..|a|];
      LongerPath(a, b);
    }
    if |b| <= |a| {
      assert b == target[..|b|] == a[..|b|];
      LongerPath(b, a);
    }
  }

  ghost predicate IsRead(line: string, m: Mount, target: Components) {
    && Described(line) == (m.kind, OptionsOf(m))
    && (RowCovers(Fields(line), Path(target)) <==> Shown(m.path) <= target)
    && |Fields(line)| >= 4 && Unescape(Fields(line)[1]) == Path(Shown(m.path))
  }

  /**
   For every table the kernel prints with separable rows, the line the lookup picks is the topmost by the mount
   points as shown, and it describes that mount's kind and options.
   */
  lemma LookupFindsTheTopmostShown(mounts: seq<Mount>, target: Components, k: nat)
    requires forall m :: m in mounts ==> Separable(m)
    ensures Visible(Lines(Table(mounts)), Path(target), k) <==> Topmost(ShownPaths(mounts), target, k)
    ensures k < |mounts| ==>
              k < |Lines(Table(mounts))| && Described(Lines(Table(mounts))[k]) == (mounts[k].kind, OptionsOf(mounts[k]))
  {
    TableLines(mounts);
    forall j | 0 <= j < |mounts|
      ensures IsRead(Lines(Table(mounts))[j], mounts[j], target)
    {
      assert mounts[j] in mounts;
      RowRead(mounts[j], target);
    }
    SameChoice(Lines(Table(mounts)), mounts, ShownPaths(mounts), target, k);
  }

  lemma SameChoice(lines: seq<string>, mounts: seq<Mount>, paths: seq<Components>, target: Components, k: nat)
    requires |lines| == |mounts| == |paths|
    requires forall j :: 0 <= j < |mounts| ==> IsRead(lines[j], mounts[j], target) && paths[j] == Shown(mounts[j].path)
    ensures Visible(lines, Path(target), k) <==> Topmost(paths, target, k)
  {
    if k < |paths| && paths[k] <= target {
      forall j | 0 <= j < |paths| && paths[j] <= target
        ensures |paths[j]| < |paths[k]| <==> |Path(paths[j])| < |Path(paths[k])|
        ensures |paths[j]| == |paths[k]| <==> |Path(paths[j])| == |Path(paths[k])|
      {
        DepthIsLength(paths[j], paths[k], target);
      }
    }
  }

  // ---------- when the lookup sees the visible mount ----------

  lemma {:induction false} SomeTopmost(paths: seq<Components>, target: Components, j: nat) returns (k: nat)
    requires j < |paths| && paths[j] <= target
    ensures Topmost(paths, target, k) && (k == j || Above(paths, k, j))
  {
    k := j;
    for i := 0 to |paths|
      invariant k < |paths| && paths[k] <= target && (k == j || Above(paths, k, j))
      invariant forall x :: 0 <= x < i && paths[x] <= target ==> x == k || Above(paths, k, x)
    {
      if paths[i] <= target && i != k && !Above(paths, k, i) {
        assert Above(paths, i, k);
        k := i;
      }
    }
  }

  /** Every mount whose path is shown differently and covers the target either way lies below one shown as it is. */
  ghost predicate Outranked(p: seq<Components>, q: seq<Components>, target: Components)
    requires |p| == |q|
  {
    forall j :: 0 <= j < |p| && p[j] != q[j] && (p[j] <= target || q[j] <= target) ==> HasAbove(p, q, target, j)
  }

  ghost predicate HasAbove(p: seq<Components>, q: seq<Components>, target: Components, j: nat)
    requires |p| == |q| && j < |p|
  {
    exists g :: 0 <= g < |p| && p[g] == q[g] && p[g] <= target && Above(p, g, j)
  }

  ghost predicate SameDepths(p: seq<Components>, q: seq<Components>) {
    |p| == |q| && forall j :: 0 <= j < |p| ==> |p[j]| == |q[j]|
  }

  lemma NotBoth(a: Components, b: Components, target: Components)
    requires |a| == |b| && a <= target && b <= target
    ensures a == b
  {
    assert a == target[..|a|] == b;
  }

  lemma OutrankedKeeps(p: seq<Components>, q: seq<Components>, target: Components, k: nat)
    requires SameDepths(p, q) && Outranked(p, q, target) && Topmost(p, target, k)
    ensures Topmost(q, target, k)
  {
    assert p[k] == q[k];
    forall j | 0 <= j < |q| && q[j] <= target
      ensures j == k || Above(q, k, j)
    {
      if p[j] != q[j] {
        var g :| 0 <= g < |p| && p[g] == q[g] && p[g] <= target && Above(p, g, j);
        assert g == k || Above(p, k, g);
      } else {
        assert p[j] <= target;
      }
    }
  }

  /** A mount that is not outranked makes the two views differ, whichever of them it covers the target in. */
  lemma UnrankedDiffers(p: seq<Components>, q: seq<Components>, target: Components, j: nat) returns (k: nat)
    requires SameDepths(p, q) && j < |p| && p[j] != q[j] && p[j] <= target && !HasAbove(p, q, target, j)
    ensures Topmost(p, target, k) && !Topmost(q, target, k)
  {
    k := SomeTopmost(p, target, j);
    if q[k] <= target { NotBoth(p[k], q[k], target); }
  }

  lemma SameTopmostExactly(p: seq<Components>, q: seq<Components>, target: Components)
    requires SameDepths(p, q)
    ensures (forall k: nat :: Topmost(p, target, k) <==> Topmost(q, target, k)) <==> Outranked(p, q, target)
  {
    if Outranked(p, q, target) {
      OutrankedBackwards(p, q, target);
      forall k: nat
        ensures Topmost(p, target, k) <==> Topmost(q, target, k)
      {
        if Topmost(p, target, k) { OutrankedKeeps(p, q, target, k); }
        if Topmost(q, target, k) { OutrankedKeeps(q, p, target, k); }
      }
    } else {
      var j :| 0 <= j < |p| && p[j] != q[j] && (p[j] <= target || q[j] <= target) && !HasAbove(p, q, target, j);
      if p[j] <= target {
        var k := UnrankedDiffers(p, q, target, j);
      } else {
        AboveBackwards(p, q, target, j);
        var k := UnrankedDiffers(q, p, target, j);
      }
    }
  }

  lemma AboveBackwards(p: seq<Components>, q: seq<Components>, target: Components, j: nat)
    requires SameDepths(p, q) && j < |p|
    ensures HasAbove(p, q, target, j) <==> HasAbove(q, p, target, j)
  {
    if HasAbove(p, q, target, j) {
      var g :| 0 <= g < |p| && p[g] == q[g] && p[g] <= target && Above(p, g, j);
      assert Above(q, g, j);
    }
    if HasAbove(q, p, target, j) {
      var g :| 0 <= g < |p| && q[g] == p[g] && q[g] <= target && Above(q, g, j);
      assert Above(p, g, j);
    }
  }

  lemma OutrankedBackwards(p: seq<Components>, q: seq<Components>, target: Components)
    requires SameDepths(p, q) && Outranked(p, q, target)
    ensures Outranked(q, p, target)
  {
    forall j | 0 <= j < |q| && q[j] != p[j] && (q[j] <= target || p[j] <= target)
      ensures HasAbove(q, p, target, j)
    {
      AboveBackwards(p, q, target, j);
    }
  }

  /** The lines chosen for the target are those of the topmost paths. */
  ghost predicate Agrees(lines: seq<string>, target: Components, paths: seq<Components>) {
    forall k: nat :: Visible(lines, Path(target), k) <==> Topmost(paths, target, k)
  }

  lemma AgreesExactly(lines: seq<string>, target: Components, p: seq<Components>, q: seq<Components>)
    requires SameDepths(p, q) && Agrees(lines, target, q)
    ensures Agrees(lines, target, p) <==> Outranked(p, q, target)
  {
    SameTopmostExactly(p, q, target);
    if Agrees(lines, target, p) {
      forall k: nat
        ensures Topmost(p, target, k) <==> Topmost(q, target, k)
      {
        assert Visible(lines, Path(target), k) <==> Topmost(p, target, k);
      }
    }
  }

  /**
   The lookup picks the visible mount if and only if every mount point with a newline that covers the target,
   as it is or as it is shown, is outranked by a readable one: a deeper one, or one as deep and later.
   */
  lemma LookupIsRightExactly(mounts: seq<Mount>, target: Components)
    requires forall m :: m in mounts ==> Separable(m)
    ensures Agrees(Lines(Table(mounts)), target, PathsOf(mounts)) <==>
              Outranked(PathsOf(mounts), ShownPaths(mounts), target)
  {
    forall k: nat
      ensures Visible(Lines(Table(mounts)), Path(target), k) <==> Topmost(ShownPaths(mounts), target, k)
    {
      LookupFindsTheTopmostShown(mounts, target, k);
    }
    AgreesExactly(Lines(Table(mounts)), target, PathsOf(mounts), ShownPaths(mounts));
  }

  /** A mount point is shown as it is exactly when it has no newline. */
  lemma ShownAsItIs(cs: Components)
    ensures Shown(cs) == cs <==> '\n' !in Path(cs)
  {
    ShownPath(cs);
    EscapingGrows(Path(cs), {'\n'});
    if Path(Shown(cs)) == Path(cs) { PathInjective(Shown(cs), cs); }
  }

  lemma PathInjective(a: Components, b: Components)
    requires Path(a) == Path(b)
    ensures a == b
  {
    CoversIsPrefix(a, b);
    CoversIsPrefix(b, a);
  }

  /** Concretely: `/a\nb/x` lies on a mount at `/a\nb` over the root mount, but the lookup picks the root mount. */
  lemma NewlineMountIsMissed(root: Mount, broken: Mount)
    requires Separable(root) && Separable(broken) && root.path == [] && broken.path == [BROKEN]
    ensures var mounts := [root, broken];
            var target := [BROKEN, ['x']];
            Visible(Lines(Table(mounts)), Path(target), 0) && VisibleMount(mounts, target, 1)
  {
    var mounts := [root, broken];
    var target := [BROKEN, ['x']];
    assert forall m :: m in mounts ==> Separable(m);
    LookupFindsTheTopmostShown(mounts, target, 0);
    TopmostOfTwo(PathsOf(mounts), target, 1);
    TopmostOfTwo(ShownPaths(mounts), target, 0);
  }

  const BROKEN: string := ['a', '\n', 'b']

  lemma TopmostOfTwo(paths: seq<Components>, target: Components, k: nat)
    requires |paths| == 2 && paths[0] == [] && target == [BROKEN, ['x']]
    requires paths[1] == if k == 1 then [BROKEN] else Shown([BROKEN])
    requires k <= 1
    ensures Topmost(paths, target, k)
  {
    BrokenIsNotShown();
    assert k == 1 ==> paths[1] == target[..1];
  }

  lemma BrokenIsNotShown()
    ensures !(Shown([BROKEN]) <= [BROKEN, ['x']])
  {
    EscapingGrows(BROKEN, {'\n'});
    assert '\n' == BROKEN[1] && '\n' in BROKEN;
    assert Shown([BROKEN])[0] != BROKEN;
  }

  /** In particular, where no mount point has a newline, the lookup always picks the visible mount. */
  lemma LookupFindsTheVisibleMount(mounts: seq<Mount>, target: Components, k: nat)
    requires forall m :: m in mounts ==> Separable(m) && '\n' !in Path(m.path)
    ensures Visible(Lines(Table(mounts)), Path(target), k) <==> VisibleMount(mounts, target, k)
    ensures k < |mounts| ==>
              k < |Lines(Table(mounts))| && Described(Lines(Table(mounts))[k]) == (mounts[k].kind, OptionsOf(mounts[k]))
  {
    LookupFindsTheTopmostShown(mounts, target, k);
    forall j | 0 <= j < |mounts|
      ensures Shown(mounts[j].path) == mounts[j].path
    {
      assert mounts[j] in mounts;
      ShownAsItIs(mounts[j].path);
    }
    assert ShownPaths(mounts) == PathsOf(mounts);
  }

  /**
   Without the kernel's form of a mount point the claim fails: two different strings of one length can both
   cover a path, when one of them ends in slashes.
   */
  lemma TrailingSlashesCover()
    ensures var a, b := ['/', 'a', '/', '/'], ['/', 'a', '/', 'b'];
            Covers(a, b) && Covers(b, b) && |a| == |b| && a != b
  {
    assert StripSlashes(['/', 'a']) == ['/', 'a'];
    assert ['/', 'a', '/'][..2] == ['/', 'a'];
    assert ['/', 'a', '/', '/'][..3] == ['/', 'a', '/'];
  }

  /** It holds of covering strings without a trailing slash, the root aside. */
  lemma SameLengthSamePath(a: string, b: string, target: string)
    requires Covers(a, target) && Covers(b, target) && |a| == |b|
    requires (a == ['/'] || StripSlashes(a) == a) && (b == ['/'] || StripSlashes(b) == b)
    ensures a == b
  {
    LeadingPart(a, target);
    LeadingPart(b, target);
  }

  lemma LeadingPart(a: string, target: string)
    requires Covers(a, target) && (a == ['/'] || StripSlashes(a) == a)
    ensures a <= target
  {
    if a == ['/'] {
      assert StripSlashes(a) == [] by { assert a[..0] == []; }
    }
  }

  lemma PathNotEmpty(cs: Components)
    ensures Path(cs) != []
  {
  }
}
