/**
 Two readers of one archive format (the ustar interchange format of the pax utility in IEEE Std 1003.1,
 ordinary files only): the staging reader, which writes each member out in chunks, and the bundle reader,
 which keeps members in memory. Both are proved against one reference reading of the byte stream.
 */
module TarStream {
  import opened Wrappers
  import opened Sequences
  import opened Texts

  /** Names with the digest each must have. */
  type Catalog = map<string, string>

  type Payloads = map<string, Bytes>

  const BLOCK: nat := 512
  const CHUNK: nat := 0x10_0000
  const MAX_BINARY: nat := 0x1000_0000
  const MAX_FILE: nat := 0x1000_0000
  const MAX_HELPER: nat := 0x20_0000
  const MAX_TOTAL: nat := 0x4000_0000
  const MAX_TRAILING: nat := 65536

  function Zeros(n: nat): (z: Bytes)
    ensures |z| == n && forall i :: 0 <= i < n ==> z[i] == 0
  {
    seq(n, i => 0 as Byte)
  }

  predicate AllZero(b: Bytes) { forall i :: 0 <= i < |b| ==> b[i] == 0 }

  /** Zero bytes needed to fill the last block of a member. */
  function Padding(size: nat): nat { (512 - size % 512) % 512 }

  // ---------- what a member must be ----------

  /** What `TarInfo.frombuf` makes of a header block. */
  datatype Member = Member(name: string, size: int, regular: bool, linked: bool)

  /**
   The archive's rules: header decoding, SHA-256, the executable check, which members are executables,
   and which names have the form `group/name`.
   */
  datatype Rules = Rules(decode: Bytes -> Option<Member>, digest: Bytes -> string, executable: Bytes -> bool,
                         required: set<string>, grouped: string -> bool)

  function Half(b: Bytes, at: nat): int
    requires at + 2 <= |b|
  {
    b[at] as int + 256 * b[at + 1] as int
  }

  /** `verify_binary_header`: a native ELF64 little-endian amd64 executable. */
  predicate BinaryHeader(b: Bytes) {
    && |b| >= 64
    && b[..7] == [0x7f, 0x45, 0x4c, 0x46, 2, 1, 1]
    && (Half(b, 16) == 2 || Half(b, 16) == 3) && Half(b, 18) == 62
    && Half(b, 20) == 1 && Half(b, 22) == 0 && Half(b, 52) == 64
  }

  /** A name that can be created in a directory. */
  predicate IsFileName(s: string) { s != [] && s != ['.'] && s != ['.', '.'] && '/' !in s }

  predicate Grouped(name: string) {
    exists k | 0 <= k < |name| :: name[k] == '/' && IsFileName(name[k + 1..])
      && (name[..k] == "bin" || name[..k] == "libexec")
  }

  function NativeRules(decode: Bytes -> Option<Member>, digest: Bytes -> string): Rules {
    Rules(decode, digest, BinaryHeader, {"bin/ipars", "bin/iparsd", "bin/ipars-k8s-controller"}, Grouped)
  }

  /** The executable check looks at no more than the first 64 bytes. */
  ghost predicate PrefixDecided(executable: Bytes -> bool) {
    && (forall b :: executable(b) ==> |b| >= 64)
    && (forall b: Bytes, n {:trigger executable(b[..n])} :: 64 <= n <= |b| ==> (executable(b[..n]) <==> executable(b)))
  }

  lemma HeaderIsPrefixDecided(decode: Bytes -> Option<Member>, digest: Bytes -> string)
    ensures PrefixDecided(NativeRules(decode, digest).executable)
  {
    forall b: Bytes, n | 64 <= n <= |b|
      ensures BinaryHeader(b[..n]) <==> BinaryHeader(b)
    {
      assert b[..n][..7] == b[..7];
    }
  }

  // ---------- the reference reading ----------

  /** How the two readers differ: the size allowed to a helper, and whether names must be grouped. */
  datatype Reader = Reader(helperMax: nat, grouped: bool)

  const STAGING := Reader(MAX_HELPER, true)
  const BUNDLE := Reader(MAX_FILE, false)

  function Maximum(reader: Reader, rules: Rules, name: string): nat {
    if name in rules.required then MAX_BINARY else reader.helperMax
  }

  predicate Admitted(reader: Reader, rules: Rules, files: Catalog, m: Member, seen: Payloads, total: nat) {
    && m.name in files && m.name !in seen && m.regular && !m.linked
    && 0 < m.size <= Maximum(reader, rules, m.name) && total + m.size <= MAX_TOTAL
    && (reader.grouped ==> rules.grouped(m.name))
  }

  predicate Genuine(rules: Rules, files: Catalog, name: string, data: Bytes) {
    name in files && (name in rules.required ==> rules.executable(data)) && rules.digest(data) == files[name]
  }

  /** A member and what follows it. */
  datatype Taken = Taken(name: string, data: Bytes, rest: Bytes)

  /** What a read of `n` bytes returns, fewer only at the end, and what it leaves. */
  function Front(stream: Bytes, n: nat): Bytes { if n <= |stream| then stream[..n] else stream }
  function Back(stream: Bytes, n: nat): Bytes { if n <= |stream| then stream[n..] else [] }

  /** One member at the front of the stream. */
  function Take(reader: Reader, rules: Rules, files: Catalog, stream: Bytes, seen: Payloads,
                total: nat): Result<Taken> {
    var m := rules.decode(Front(stream, BLOCK));
    if |stream| < BLOCK || m.None? || !Admitted(reader, rules, files, m.value, seen, total) then Refused
    else TakeData(rules, files, m.value, Back(stream, BLOCK))
  }

  /** Its payload and padding, after the header. */
  function TakeData(rules: Rules, files: Catalog, m: Member, stream: Bytes): Result<Taken>
    requires m.size >= 0
  {
    var end := m.size + Padding(m.size);
    if end <= |stream| && Genuine(rules, files, m.name, stream[..m.size]) && AllZero(stream[m.size..end])
    then Accepted(Taken(m.name, stream[..m.size], stream[end..])) else Refused
  }

  /** Two zero blocks and a bounded run of zeros end the archive. */
  predicate Ends(stream: Bytes) {
    2 * BLOCK <= |stream| <= 2 * BLOCK + MAX_TRAILING && AllZero(stream)
  }

  predicate AtEnd(stream: Bytes) { |stream| >= BLOCK && AllZero(stream[..BLOCK]) }

  /** Members until the end marker, which must leave exactly the catalogued names. */
  function ReadFrom(reader: Reader, rules: Rules, files: Catalog, stream: Bytes, seen: Payloads,
                    total: nat): Result<Payloads>
    decreases |stream|
  {
    if |stream| < BLOCK then Refused
    else if AtEnd(stream) then if Ends(stream) && seen.Keys == files.Keys then Accepted(seen) else Refused
    else
      var taken := Take(reader, rules, files, stream, seen, total);
      if taken.Refused? || |taken.value.rest| >= |stream| then Refused
      else ReadFrom(reader, rules, files, taken.value.rest, seen[taken.value.name := taken.value.data],
                    total + |taken.value.data|)
  }

  function Read(reader: Reader, rules: Rules, files: Catalog, stream: Bytes): Result<Payloads> {
    ReadFrom(reader, rules, files, stream, map[], 0)
  }

  lemma TakenIsShorter(reader: Reader, rules: Rules, files: Catalog, stream: Bytes, seen: Payloads, total: nat)
    ensures var taken := Take(reader, rules, files, stream, seen, total);
            taken.Accepted? ==> |taken.value.rest| < |stream|
  {
  }

  /** Reading on after one member. */
  lemma ReadTaken(reader: Reader, rules: Rules, files: Catalog, stream: Bytes, seen: Payloads, total: nat,
                  taken: Result<Taken>)
    requires |stream| >= BLOCK && !AtEnd(stream) && taken == Take(reader, rules, files, stream, seen, total)
    ensures taken.Accepted? ==> |taken.value.rest| < |stream|
    ensures ReadFrom(reader, rules, files, stream, seen, total) ==
              if taken.Refused? then Refused
              else ReadFrom(reader, rules, files, taken.value.rest, seen[taken.value.name := taken.value.data],
                            total + |taken.value.data|)
  {
    TakenIsShorter(reader, rules, files, stream, seen, total);
  }

  /** The end marker as both readers check it: a second zero block, then a bounded run of zeros. */
  method EndMarker(source: Bytes) returns (ok: bool)
    requires AtEnd(source)
    ensures ok <==> Ends(source)
  {
    var rest := Back(source, BLOCK);
    if Front(rest, BLOCK) != Zeros(BLOCK) {
      ZerosInside(source, BLOCK, BLOCK);
      return false;
    }
    rest := Back(rest, BLOCK);
    var trailing := Front(rest, MAX_TRAILING + 1);
    ok := |trailing| <= MAX_TRAILING && trailing == Zeros(|trailing|);
    if |trailing| <= MAX_TRAILING {
      assert trailing == source[2 * BLOCK..];
      ThreeParts(source);
    }
  }

  lemma ZerosInside(b: Bytes, at: nat, n: nat)
    ensures at + n <= |b| && b == Zeros(|b|) ==> b[at..at + n] == Zeros(n) && b[at..][..n] == Zeros(n)
  {
  }

  lemma ThreeParts(here: Bytes)
    requires |here| >= 2 * BLOCK && here[..BLOCK] == Zeros(BLOCK) && here[BLOCK..][..BLOCK] == Zeros(BLOCK)
    ensures here == Zeros(|here|) <==> here[2 * BLOCK..] == Zeros(|here| - 2 * BLOCK)
  {
    if here[2 * BLOCK..] == Zeros(|here| - 2 * BLOCK) {
      forall i | 0 <= i < |here|
        ensures here[i] == 0
      {
        if BLOCK <= i < 2 * BLOCK { assert here[BLOCK..][..BLOCK][i - BLOCK] == here[i]; }
        if i < BLOCK { assert here[..BLOCK][i] == here[i]; }
        if i >= 2 * BLOCK { assert here[2 * BLOCK..][i - 2 * BLOCK] == here[i]; }
      }
    }
    ZerosInside(here, 2 * BLOCK, |here| - 2 * BLOCK);
  }

  /** A padding read after the payload sees the bytes that follow it. */
  lemma PaddingFollows(body: Bytes, size: nat, padding: nat)
    requires size <= |body|
    ensures Front(Back(body, size), padding) == Zeros(padding)
       <==> size + padding <= |body| && AllZero(body[size..size + padding])
    ensures size + padding <= |body| ==> Back(Back(body, size), padding) == body[size + padding..]
  {
    if size + padding <= |body| {
      assert Front(Back(body, size), padding) == body[size..size + padding];
    }
  }

  // ---------- the staging reader ----------

  /** Copies one payload in chunks, checking the executable header on the first chunk. */
  method CopyPayload(rules: Rules, source: Bytes, size: nat, name: string) returns (r: Result<Bytes>, rest: Bytes)
    requires size > 0 && PrefixDecided(rules.executable)
    ensures r.Accepted? <==> size <= |source| && (name in rules.required ==> rules.executable(Front(source, size)))
    ensures r.Accepted? ==> r.value == Front(source, size) && rest == Back(source, size)
  {
    rest := source;
    var output: Bytes := [];
    var remaining, first := size, true;
    while remaining > 0
      invariant remaining >= 0 && remaining + |output| == size && first == (output == [])
      invariant |output| <= |source| && output == source[..|output|] && rest == source[|output|..]
      invariant !first && name in rules.required ==> rules.executable(output)
      decreases remaining
    {
      var want := if CHUNK < remaining then CHUNK else remaining;
      var chunk := Front(rest, want);
      if chunk == [] {
        return Refused, rest;
      }
      ChunkStep(source, |output|, want);
      if first && name in rules.required && !rules.executable(chunk) {
        FirstChunkDecides(rules, source, size, want);
        return Refused, rest;
      }
      GrownStaysExecutable(rules, output, chunk);
      first := false;
      output := output + chunk;
      rest := Back(rest, want);
      remaining := remaining - |chunk|;
    }
    r := Accepted(output);
  }

  lemma ChunkStep(source: Bytes, done: nat, want: nat)
    requires done <= |source|
    ensures var chunk := Front(source[done..], want);
            && done + |chunk| <= |source| && source[..done] + chunk == source[..done + |chunk|]
            && Back(source[done..], want) == source[done + |chunk|..]
            && (done == 0 ==> chunk == Front(source, want))
  {
  }

  lemma GrownStaysExecutable(rules: Rules, output: Bytes, chunk: Bytes)
    requires PrefixDecided(rules.executable)
    ensures rules.executable(output) ==> rules.executable(output + chunk)
    ensures output == [] ==> output + chunk == chunk
  {
    assert (output + chunk)[..|output|] == output;
  }

  lemma FirstChunkDecides(rules: Rules, source: Bytes, size: nat, want: nat)
    requires PrefixDecided(rules.executable) && want == (if CHUNK < size then CHUNK else size)
             && !rules.executable(Front(source, want))
    ensures size <= |source| ==> !rules.executable(Front(source, size))
  {
    if size <= |source| {
      var data := Front(source, size);
      assert Front(source, want) == data[..want];
    }
  }

  method StagePayload(rules: Rules, files: Catalog, m: Member, source: Bytes) returns (r: Result<Taken>)
    requires m.size > 0 && m.name in files && PrefixDecided(rules.executable)
    ensures r == TakeData(rules, files, m, source)
  {
    var payload, rest := CopyPayload(rules, source, m.size, m.name);
    if payload.Refused? || rules.digest(payload.value) != files[m.name] {
      return Refused;
    }
    var padding := Padding(m.size);
    PaddingFollows(source, m.size, padding);
    if Front(rest, padding) != Zeros(padding) {
      return Refused;
    }
    r := Accepted(Taken(m.name, payload.value, Back(rest, padding)));
  }

  method StageMember(rules: Rules, files: Catalog, source: Bytes, seen: Payloads, total: nat)
    returns (r: Result<Taken>)
    requires |source| >= BLOCK && PrefixDecided(rules.executable)
    ensures r == Take(STAGING, rules, files, source, seen, total)
  {
    var header := Front(source, BLOCK);
    var m := rules.decode(header);
    if m.None? || !Admitted(STAGING, rules, files, m.value, seen, total) {
      return Refused;
    }
    r := StagePayload(rules, files, m.value, Back(source, BLOCK));
  }

  /** `unpack_verified_archive`, from the decompressed stream to the files written. */
  method UnpackVerifiedArchive(rules: Rules, files: Catalog, stream: Bytes) returns (r: Result<Payloads>)
    requires PrefixDecided(rules.executable)
    ensures r == Read(STAGING, rules, files, stream)
  {
    var source, total: nat := stream, 0;
    var seen: Payloads := map[];
    while true
      invariant Read(STAGING, rules, files, stream) == ReadFrom(STAGING, rules, files, source, seen, total)
      decreases |source|
    {
      var header := Front(source, BLOCK);
      if |header| != BLOCK {
        return Refused;
      }
      if header == Zeros(BLOCK) {
        var ends := EndMarker(source);
        return if ends && seen.Keys == files.Keys then Accepted(seen) else Refused;
      }
      var taken := StageMember(rules, files, source, seen, total);
      ReadTaken(STAGING, rules, files, source, seen, total, taken);
      if taken.Refused? {
        return Refused;
      }
      total := total + |taken.value.data|;
      seen := seen[taken.value.name := taken.value.data];
      source := taken.value.rest;
    }
  }

  // ---------- the bundle reader ----------

  method BundlePayload(rules: Rules, files: Catalog, m: Member, source: Bytes) returns (r: Result<Taken>)
    requires m.size >= 0 && m.name in files && PrefixDecided(rules.executable)
    ensures r == TakeData(rules, files, m, source)
  {
    var data := Front(source, m.size);
    if |data| != m.size || rules.digest(data) != files[m.name] {
      return Refused;
    }
    HeadDecides(rules, data);
    if m.name in rules.required && !rules.executable(Front(data, 64)) {
      return Refused;
    }
    var padding := Padding(m.size);
    PaddingFollows(source, m.size, padding);
    var rest := Back(source, m.size);
    if Front(rest, padding) != Zeros(padding) {
      return Refused;
    }
    r := Accepted(Taken(m.name, data, Back(rest, padding)));
  }

  method BundleMember(rules: Rules, files: Catalog, source: Bytes, payloads: Payloads, total: nat)
    returns (r: Result<Taken>)
    requires |source| >= BLOCK && PrefixDecided(rules.executable)
    ensures r == Take(BUNDLE, rules, files, source, payloads, total)
  {
    var m := rules.decode(Front(source, BLOCK));
    if m.None?
       || !(m.value.name in files && m.value.name !in payloads && m.value.regular && !m.value.linked
         && 0 < m.value.size <= MAX_FILE) {
      return Refused;
    }
    if total + m.value.size > MAX_TOTAL {
      return Refused;
    }
    r := BundlePayload(rules, files, m.value, Back(source, BLOCK));
  }

  lemma HeadDecides(rules: Rules, data: Bytes)
    requires PrefixDecided(rules.executable)
    ensures rules.executable(Front(data, 64)) <==> rules.executable(data)
  {
  }

  /** `native_payloads`, from the decompressed stream to the payloads in memory. */
  method NativePayloads(rules: Rules, files: Catalog, stream: Bytes) returns (r: Result<Payloads>)
    requires PrefixDecided(rules.executable)
    ensures r == Read(BUNDLE, rules, files, stream)
  {
    var source, total: nat := stream, 0;
    var payloads: Payloads := map[];
    while true
      invariant Read(BUNDLE, rules, files, stream) == ReadFrom(BUNDLE, rules, files, source, payloads, total)
      decreases |source|
    {
      var header := Front(source, BLOCK);
      if |header| != BLOCK {
        return Refused;
      }
      if header == Zeros(BLOCK) {
        var ends := EndMarker(source);
        return if ends && payloads.Keys == files.Keys then Accepted(payloads) else Refused;
      }
      var taken := BundleMember(rules, files, source, payloads, total);
      ReadTaken(BUNDLE, rules, files, source, payloads, total, taken);
      if taken.Refused? {
        return Refused;
      }
      total := total + |taken.value.data|;
      payloads := payloads[taken.value.name := taken.value.data];
      source := taken.value.rest;
    }
  }

  // ---------- the two readers agree ----------

  /** The payloads the staging reader would also accept. */
  ghost predicate Stageable(rules: Rules, payloads: Payloads) {
    forall name :: name in payloads ==> StageableOne(rules, name, payloads[name])
  }

  ghost predicate StageableOne(rules: Rules, name: string, data: Bytes) {
    rules.grouped(name) && (name !in rules.required ==> |data| <= MAX_HELPER)
  }

  lemma {:induction false} ReadExtends(reader: Reader, rules: Rules, files: Catalog, stream: Bytes, seen: Payloads,
                                       total: nat, name: string)
    requires ReadFrom(reader, rules, files, stream, seen, total).Accepted? && name in seen
    ensures var m := ReadFrom(reader, rules, files, stream, seen, total).value;
            name in m && m[name] == seen[name]
    decreases |stream|
  {
    if !AtEnd(stream) {
      var taken := Take(reader, rules, files, stream, seen, total).value;
      assert taken.name !in seen;
      ReadExtends(reader, rules, files, taken.rest, seen[taken.name := taken.data], total + |taken.data|, name);
    }
  }

  /** Member by member, the staging reader takes exactly what the bundle reader takes and could be staged. */
  lemma TakesAgree(rules: Rules, files: Catalog, s: Bytes, p: Payloads, t: nat)
    ensures var a, b := Take(STAGING, rules, files, s, p, t), Take(BUNDLE, rules, files, s, p, t);
            a == if b.Accepted? && StageableOne(rules, b.value.name, b.value.data) then b else Refused
  {
  }

  lemma {:induction false} ReadsAgree(rules: Rules, files: Catalog, stream: Bytes, seen: Payloads, total: nat,
                                      m: Payloads)
    requires Stageable(rules, seen)
    ensures ReadFrom(STAGING, rules, files, stream, seen, total) == Accepted(m)
       <==> ReadFrom(BUNDLE, rules, files, stream, seen, total) == Accepted(m) && Stageable(rules, m)
    decreases |stream|
  {
    if |stream| >= BLOCK && !AtEnd(stream) {
      var taken := BothRead(rules, files, stream, seen, total);
      if taken.Accepted? {
        var name, data := taken.value.name, taken.value.data;
        var next := seen[name := data];
        if StageableOne(rules, name, data) {
          StageableNext(rules, seen, name, data);
          ReadsAgree(rules, files, taken.value.rest, next, total + |data|, m);
        } else {
          StaysUnstageable(rules, files, taken.value.rest, next, total + |data|, name, m);
        }
      }
    }
  }

  lemma StageableNext(rules: Rules, seen: Payloads, name: string, data: Bytes)
    requires Stageable(rules, seen) && StageableOne(rules, name, data)
    ensures Stageable(rules, seen[name := data])
  {
  }

  lemma StaysUnstageable(rules: Rules, files: Catalog, stream: Bytes, seen: Payloads, total: nat, name: string,
                         m: Payloads)
    requires name in seen && !StageableOne(rules, name, seen[name])
    ensures ReadFrom(BUNDLE, rules, files, stream, seen, total) == Accepted(m) ==> !Stageable(rules, m)
  {
    if ReadFrom(BUNDLE, rules, files, stream, seen, total) == Accepted(m) {
      ReadExtends(BUNDLE, rules, files, stream, seen, total, name);
      assert name in m;
    }
  }

  /** Both readers before one member: they go on alike unless only the bundle reader may take it. */
  lemma BothRead(rules: Rules, files: Catalog, stream: Bytes, seen: Payloads, total: nat) returns (taken: Result<Taken>)
    requires |stream| >= BLOCK && !AtEnd(stream)
    ensures taken.Accepted? ==> |taken.value.rest| < |stream|
    ensures taken.Refused? ==>
              ReadFrom(BUNDLE, rules, files, stream, seen, total).Refused?
                && ReadFrom(STAGING, rules, files, stream, seen, total).Refused?
    ensures taken.Accepted? ==>
              var name, data, rest := taken.value.name, taken.value.data, taken.value.rest;
              && ReadFrom(BUNDLE, rules, files, stream, seen, total)
                 == ReadFrom(BUNDLE, rules, files, rest, seen[name := data], total + |data|)
              && ReadFrom(STAGING, rules, files, stream, seen, total)
                 == if StageableOne(rules, name, data)
                   then ReadFrom(STAGING, rules, files, rest, seen[name := data], total + |data|) else Refused
  {
    taken := Take(BUNDLE, rules, files, stream, seen, total);
    TakesAgree(rules, files, stream, seen, total);
    ReadTaken(STAGING, rules, files, stream, seen, total, Take(STAGING, rules, files, stream, seen, total));
    ReadTaken(BUNDLE, rules, files, stream, seen, total, taken);
  }

  /**
   Whatever the staging reader accepts, the bundle reader accepts with the same contents; and the staging
   reader accepts everything the bundle reader does that respects its stricter helper limit and name form.
   */
  lemma ReadersAgree(rules: Rules, files: Catalog, stream: Bytes, m: Payloads)
    ensures Read(STAGING, rules, files, stream) == Accepted(m)
       <==> Read(BUNDLE, rules, files, stream) == Accepted(m) && Stageable(rules, m)
  {
    ReadsAgree(rules, files, stream, map[], 0, m);
  }

  // ---------- the format ----------

  /** A member as it lies in the archive. */
  datatype Entry = Entry(header: Bytes, data: Bytes)

  function Block(e: Entry): Bytes { e.header + e.data + Zeros(Padding(|e.data|)) }

  function Layout(entries: seq<Entry>): Bytes {
    if entries == [] then [] else Block(entries[0]) + Layout(entries[1..])
  }

  ghost predicate GoodEntry(reader: Reader, rules: Rules, files: Catalog, e: Entry, seen: Payloads, total: nat) {
    && |e.header| == BLOCK && e.header != Zeros(BLOCK)
    && var m := rules.decode(e.header);
       && m.Some? && m.value.size == |e.data| && Admitted(reader, rules, files, m.value, seen, total)
       && Genuine(rules, files, m.value.name, e.data)
  }

  function NameOf(rules: Rules, e: Entry): string {
    var m := rules.decode(e.header);
    if m.Some? then m.value.name else ""
  }

  ghost predicate GoodEntries(reader: Reader, rules: Rules, files: Catalog, entries: seq<Entry>, seen: Payloads,
                              total: nat)
    decreases |entries|
  {
    if entries == [] then seen.Keys == files.Keys
    else
      && GoodEntry(reader, rules, files, entries[0], seen, total)
      && GoodEntries(reader, rules, files, entries[1..], seen[NameOf(rules, entries[0]) := entries[0].data],
                     total + |entries[0].data|)
  }

  function Contents(rules: Rules, entries: seq<Entry>, seen: Payloads): Payloads
    decreases |entries|
  {
    if entries == [] then seen else Contents(rules, entries[1..], seen[NameOf(rules, entries[0]) := entries[0].data])
  }

  lemma SplitFront(a: Bytes, b: Bytes)
    ensures Front(a + b, |a|) == a && Back(a + b, |a|) == b
  {
  }

  lemma TakeBlock(reader: Reader, rules: Rules, files: Catalog, e: Entry, rest: Bytes, seen: Payloads, total: nat)
    requires GoodEntry(reader, rules, files, e, seen, total)
    ensures Take(reader, rules, files, Block(e) + rest, seen, total) == Accepted(Taken(NameOf(rules, e), e.data, rest))
    ensures |Block(e) + rest| >= BLOCK + |rest| && !AtEnd(Block(e) + rest)
  {
    var zeros := Zeros(Padding(|e.data|));
    assert Block(e) + rest == e.header + (e.data + (zeros + rest));
    SplitFront(e.header, e.data + (zeros + rest));
    SplitFront(e.data, zeros + rest);
    SplitFront(zeros, rest);
  }

  lemma ReadFront(reader: Reader, rules: Rules, files: Catalog, e: Entry, rest: Bytes, seen: Payloads, total: nat)
    requires GoodEntry(reader, rules, files, e, seen, total)
    ensures ReadFrom(reader, rules, files, Block(e) + rest, seen, total)
         == ReadFrom(reader, rules, files, rest, seen[NameOf(rules, e) := e.data], total + |e.data|)
  {
    TakeBlock(reader, rules, files, e, rest, seen, total);
    ReadTaken(reader, rules, files, Block(e) + rest, seen, total, Accepted(Taken(NameOf(rules, e), e.data, rest)));
  }

  /** Every well-formed archive is read back to exactly its members. */
  lemma {:induction false} ReadLayout(reader: Reader, rules: Rules, files: Catalog, entries: seq<Entry>, trailing: nat,
                                      seen: Payloads, total: nat)
    requires GoodEntries(reader, rules, files, entries, seen, total) && trailing <= MAX_TRAILING
    ensures ReadFrom(reader, rules, files, Layout(entries) + Zeros(2 * BLOCK + trailing), seen, total)
         == Accepted(Contents(rules, entries, seen))
    decreases |entries|
  {
    if entries == [] {
      ReadEnd(reader, rules, files, trailing, seen, total);
      assert Layout(entries) + Zeros(2 * BLOCK + trailing) == Zeros(2 * BLOCK + trailing);
    } else {
      var e := entries[0];
      assert [e] + entries[1..] == entries;
      ReadLayout(reader, rules, files, entries[1..], trailing, seen[NameOf(rules, e) := e.data], total + |e.data|);
      ReadLayoutFront(reader, rules, files, e, entries[1..], Zeros(2 * BLOCK + trailing), seen, total);
    }
  }

  lemma ReadLayoutFront(reader: Reader, rules: Rules, files: Catalog, e: Entry, more: seq<Entry>, end: Bytes,
                        seen: Payloads, total: nat)
    requires GoodEntry(reader, rules, files, e, seen, total)
    ensures ReadFrom(reader, rules, files, Layout([e] + more) + end, seen, total)
         == ReadFrom(reader, rules, files, Layout(more) + end, seen[NameOf(rules, e) := e.data], total + |e.data|)
  {
    LayoutCons(e, more, end);
    ReadFront(reader, rules, files, e, Layout(more) + end, seen, total);
  }

  lemma ReadEnd(reader: Reader, rules: Rules, files: Catalog, trailing: nat, seen: Payloads, total: nat)
    requires trailing <= MAX_TRAILING && seen.Keys == files.Keys
    ensures ReadFrom(reader, rules, files, Zeros(2 * BLOCK + trailing), seen, total) == Accepted(seen)
  {
    ZerosInside(Zeros(2 * BLOCK + trailing), 0, BLOCK);
  }

  lemma Rejoined(stream: Bytes, n: nat)
    requires |Front(stream, n)| == n
    ensures stream == Front(stream, n) + Back(stream, n)
  {
  }

  lemma TakenBlock(reader: Reader, rules: Rules, files: Catalog, stream: Bytes, seen: Payloads, total: nat)
    requires !AtEnd(stream) && Take(reader, rules, files, stream, seen, total).Accepted?
    ensures var taken := Take(reader, rules, files, stream, seen, total).value;
            var e := Entry(Front(stream, BLOCK), taken.data);
            GoodEntry(reader, rules, files, e, seen, total) && NameOf(rules, e) == taken.name
              && stream == Block(e) + taken.rest
  {
    var m := rules.decode(Front(stream, BLOCK)).value;
    Rejoined(stream, BLOCK);
    DataBlock(rules, files, m, Back(stream, BLOCK));
    var taken := Take(reader, rules, files, stream, seen, total).value;
    Regrouped(Front(stream, BLOCK), taken.data, Zeros(Padding(m.size)), taken.rest);
  }

  lemma DataBlock(rules: Rules, files: Catalog, m: Member, body: Bytes)
    requires m.size >= 0 && TakeData(rules, files, m, body).Accepted?
    ensures var taken := TakeData(rules, files, m, body).value;
            && |taken.data| == m.size && body == taken.data + (Zeros(Padding(m.size)) + taken.rest)
            && taken.name == m.name && Genuine(rules, files, m.name, taken.data)
  {
    var end := m.size + Padding(m.size);
    Parts(body, m.size, end);
    assert body[m.size..end] == Zeros(Padding(m.size));
  }

  lemma Parts(b: Bytes, i: nat, j: nat)
    requires i <= j <= |b|
    ensures b == b[..i] + (b[i..j] + b[j..])
  {
  }

  lemma Regrouped(h: Bytes, d: Bytes, z: Bytes, r: Bytes)
    ensures h + (d + (z + r)) == h + d + z + r
  {
    Associative(d, z, r);
    Associative(h, d + z, r);
    Associative(h, d, z);
  }

  lemma LayoutCons(e: Entry, more: seq<Entry>, end: Bytes)
    ensures Layout([e] + more) + end == Block(e) + (Layout(more) + end)
  {
    assert ([e] + more)[1..] == more;
  }

  /** Every accepted stream is a well-formed archive: members, two zero blocks, at most 65536 more zeros. */
  lemma {:induction false} AcceptedIsLayout(reader: Reader, rules: Rules, files: Catalog, stream: Bytes,
                                            seen: Payloads, total: nat)
    returns (entries: seq<Entry>, trailing: nat)
    requires ReadFrom(reader, rules, files, stream, seen, total).Accepted?
    ensures GoodEntries(reader, rules, files, entries, seen, total) && trailing <= MAX_TRAILING
    ensures stream == Layout(entries) + Zeros(2 * BLOCK + trailing)
    decreases |stream|
  {
    if AtEnd(stream) {
      AcceptedEnd(reader, rules, files, stream, seen, total);
      entries, trailing := [], |stream| - 2 * BLOCK;
    } else {
      var e, rest := FirstBlock(reader, rules, files, stream, seen, total);
      var more, t := AcceptedIsLayout(reader, rules, files, rest, seen[NameOf(rules, e) := e.data], total + |e.data|);
      GoodCons(reader, rules, files, e, more, seen, total);
      LayoutCons(e, more, Zeros(2 * BLOCK + t));
      entries, trailing := [e] + more, t;
    }
  }

  lemma AcceptedEnd(reader: Reader, rules: Rules, files: Catalog, stream: Bytes, seen: Payloads, total: nat)
    requires ReadFrom(reader, rules, files, stream, seen, total).Accepted? && AtEnd(stream)
    ensures GoodEntries(reader, rules, files, [], seen, total) && 2 * BLOCK <= |stream| <= 2 * BLOCK + MAX_TRAILING
    ensures stream == Layout([]) + Zeros(|stream|)
  {
    assert stream == Zeros(|stream|);
    assert Layout([]) + Zeros(|stream|) == Zeros(|stream|);
  }

  lemma FirstBlock(reader: Reader, rules: Rules, files: Catalog, stream: Bytes, seen: Payloads, total: nat)
    returns (e: Entry, rest: Bytes)
    requires ReadFrom(reader, rules, files, stream, seen, total).Accepted? && !AtEnd(stream)
    ensures GoodEntry(reader, rules, files, e, seen, total) && stream == Block(e) + rest && |rest| < |stream|
    ensures ReadFrom(reader, rules, files, rest, seen[NameOf(rules, e) := e.data], total + |e.data|).Accepted?
  {
    var taken := Take(reader, rules, files, stream, seen, total);
    ReadTaken(reader, rules, files, stream, seen, total, taken);
    TakenBlock(reader, rules, files, stream, seen, total);
    e, rest := Entry(Front(stream, BLOCK), taken.value.data), taken.value.rest;
  }

  lemma GoodCons(reader: Reader, rules: Rules, files: Catalog, e: Entry, more: seq<Entry>, seen: Payloads, total: nat)
    requires GoodEntry(reader, rules, files, e, seen, total)
    requires GoodEntries(reader, rules, files, more, seen[NameOf(rules, e) := e.data], total + |e.data|)
    ensures GoodEntries(reader, rules, files, [e] + more, seen, total)
  {
    assert ([e] + more)[1..] == more;
  }

  function Weight(entries: seq<Entry>): nat {
    if entries == [] then 0 else BLOCK + |entries[0].data| + Padding(|entries[0].data|) + Weight(entries[1..])
  }

  lemma {:induction false} LayoutLength(reader: Reader, rules: Rules, files: Catalog, entries: seq<Entry>,
                                        seen: Payloads, total: nat)
    requires GoodEntries(reader, rules, files, entries, seen, total)
    ensures |Layout(entries)| == Weight(entries)
    decreases |entries|
  {
    if entries != [] {
      LayoutLength(reader, rules, files, entries[1..], seen[NameOf(rules, entries[0]) := entries[0].data],
                   total + |entries[0].data|);
    }
  }

  /** An archive file: its entries and its trailing zeros. */
  ghost predicate IsArchive(reader: Reader, rules: Rules, files: Catalog, stream: Bytes, entries: seq<Entry>,
                            trailing: nat) {
    && GoodEntries(reader, rules, files, entries, map[], 0) && trailing <= MAX_TRAILING
    && stream == Layout(entries) + Zeros(2 * BLOCK + trailing)
  }

  /**
   A reader accepts exactly the archives of the format, yields exactly their members, and an accepted
   stream is as long as its padded members, the end marker and at most 65536 zeros.
   */
  lemma ReadsExactlyTheFormat(reader: Reader, rules: Rules, files: Catalog, stream: Bytes)
    ensures Read(reader, rules, files, stream).Accepted? <==>
              exists es, t :: IsArchive(reader, rules, files, stream, es, t)
    ensures forall es, t :: IsArchive(reader, rules, files, stream, es, t) ==>
              && Read(reader, rules, files, stream) == Accepted(Contents(rules, es, map[]))
              && |stream| == Weight(es) + 2 * BLOCK + t
  {
    if Read(reader, rules, files, stream).Accepted? {
      var es, t := AcceptedIsLayout(reader, rules, files, stream, map[], 0);
      assert IsArchive(reader, rules, files, stream, es, t);
    }
    forall es, t | IsArchive(reader, rules, files, stream, es, t)
      ensures Read(reader, rules, files, stream) == Accepted(Contents(rules, es, map[]))
      ensures |stream| == Weight(es) + 2 * BLOCK + t
    {
      ReadLayout(reader, rules, files, es, t, map[], 0);
      LayoutLength(reader, rules, files, es, map[], 0);
    }
  }
}
