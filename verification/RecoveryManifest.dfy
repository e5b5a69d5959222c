/**
 The manifest of a control-plane recovery set: what makes it acceptable, how it is printed, and the bounded
 reading that accepts it again.
 */
module RecoveryManifest {
  import opened Wrappers
  import opened Texts
  import opened Json
  import Numerals

  const MAX_MANIFEST: int := 0x4_0000
  const MAX_BACKUP: int := 0x400_0000_0000
  const TIME_LIMIT: int := 0x1_0000_0000_0000_0000
  const REQUIRED: set<string> := {"postgres", "etcd", "secret-manager", "flash-catalog", "registry", "syouyu"}

  predicate Lower(c: char) { 'a' <= c <= 'z' }
  predicate Digit(c: char) { '0' <= c <= '9' }
  predicate HexDigit(c: char) { Digit(c) || 'a' <= c <= 'f' }

  predicate IsName(s: string) {
    && 1 <= |s| <= 64 && Lower(s[0])
    && forall i :: 1 <= i < |s| ==> Lower(s[i]) || Digit(s[i]) || s[i] == '-'
  }

  predicate IsHex(s: string, low: nat, high: nat) { low <= |s| <= high && forall i :: 0 <= i < |s| ==> HexDigit(s[i]) }

  predicate IsSnapshot(s: string) { IsHex(s, 8, 64) }

  datatype Component = Component(name: string, snapshot: string, size: int, sha256: string)

  datatype Manifest = Manifest(schema: int, runId: string, createdAt: int, complete: bool, components: seq<Component>)

  function Names(components: seq<Component>): (names: seq<string>)
    ensures |names| == |components| && forall i :: 0 <= i < |names| ==> names[i] == components[i].name
  {
    if components == [] then [] else [components[0].name] + Names(components[1..])
  }

  predicate Distinct(names: seq<string>) { forall i, j :: 0 <= i < j < |names| ==> names[i] != names[j] }

  function Elements(names: seq<string>): set<string> { set n | n in names }

  predicate ComponentOk(c: Component) {
    IsName(c.name) && IsSnapshot(c.snapshot) && IsHex(c.sha256, 64, 64) && 0 < c.size <= MAX_BACKUP
  }

  /** What `load_manifest` accepts. */
  predicate Loadable(m: Manifest) {
    && m.schema == 1 && IsHex(m.runId, 32, 32) && 1 <= |m.components| <= 32
    && (forall i :: 0 <= i < |m.components| ==> ComponentOk(m.components[i])) && Distinct(Names(m.components))
    && m.complete == (REQUIRED <= Elements(Names(m.components)))
  }

  // ---------- streams ----------

  /** What a process writes: non-empty pieces, as they arrive. */
  type Chunks = cs: seq<Bytes> | forall i :: 0 <= i < |cs| ==> cs[i] != []

  function Concat(cs: seq<Bytes>): Bytes { if cs == [] then [] else Concat(cs[..|cs| - 1]) + cs[|cs| - 1] }

  lemma {:induction false} ConcatGrows(cs: seq<Bytes>, i: nat)
    requires i <= |cs|
    ensures Concat(cs[..i]) <= Concat(cs)
  {
    if i < |cs| {
      ConcatGrows(cs[..|cs| - 1], i);
      assert cs[..|cs| - 1][..i] == cs[..i];
    } else {
      assert cs[..i] == cs;
    }
  }

  lemma ConcatNext(cs: seq<Bytes>, i: nat)
    requires i < |cs|
    ensures Concat(cs[..i + 1]) == Concat(cs[..i]) + cs[i]
  {
    assert cs[..i + 1][..i] == cs[..i];
  }

  /** A bounded collection of a process's output: `invoke` with its metadata limit. */
  method Invoke(output: Result<Chunks>) returns (r: Result<Bytes>)
    ensures r == if output.Accepted? && |Concat(output.value)| <= MAX_MANIFEST then Accepted(Concat(output.value))
            else Refused
  {
    if output.Refused? {
      return Refused;
    }
    var cs := output.value;
    var collected: Bytes := [];
    for i := 0 to |cs|
      invariant collected == Concat(cs[..i]) && |collected| <= MAX_MANIFEST
    {
      ConcatNext(cs, i);
      ConcatGrows(cs, i + 1);
      if |collected| + |cs[i]| > MAX_MANIFEST {
        return Refused;
      }
      collected := collected + cs[i];
    }
    assert cs[..|cs|] == cs;
    r := Accepted(collected);
  }

  // ---------- reading ----------

  method CheckComponents(components: seq<Component>) returns (ok: bool, names: set<string>)
    ensures ok <==> (forall i :: 0 <= i < |components| ==> ComponentOk(components[i])) && Distinct(Names(components))
    ensures ok ==> names == Elements(Names(components))
  {
    names := {};
    ghost var all := Names(components);
    for i := 0 to |components|
      invariant forall j :: 0 <= j < i ==> ComponentOk(components[j])
      invariant Collected(all[..i], names)
    {
      var item := components[i];
      if item.name in names {
        Repeated(all, i);
        return false, {};
      }
      if !ComponentOk(item) {
        return false, {};
      }
      OneMore(all, i, names);
      names := names + {item.name};
    }
    assert all[..|components|] == all;
    ok := true;
  }

  ghost predicate Collected(passed: seq<string>, names: set<string>) { Distinct(passed) && names == Elements(passed) }

  lemma OneMore(all: seq<string>, i: nat, names: set<string>)
    requires i < |all| && Collected(all[..i], names) && all[i] !in names
    ensures Collected(all[..i + 1], names + {all[i]})
  {
    assert all[..i + 1] == all[..i] + [all[i]];
    forall j | 0 <= j < i
      ensures all[j] != all[i]
    {
      assert all[j] in all[..i];
    }
  }

  lemma Repeated(names: seq<string>, i: nat)
    requires i < |names| && names[i] in names[..i]
    ensures !Distinct(names)
  {
    var j :| 0 <= j < i && names[j] == names[i];
  }

  /** `load_manifest`; `decode` is the JSON reading of the manifest's fields. */
  method LoadManifest(decode: Bytes -> Option<Manifest>, snapshot: string, output: Result<Chunks>)
    returns (r: Result<Manifest>)
    ensures r == Loaded(decode, snapshot, output)
  {
    if !IsSnapshot(snapshot) {
      return Refused;
    }
    var bytes := Invoke(output);
    if bytes.Refused? {
      return Refused;
    }
    var m := decode(bytes.value);
    if m.None? || m.value.schema != 1 || !IsHex(m.value.runId, 32, 32) || m.value.components == []
       || |m.value.components| > 32 {
      return Refused;
    }
    var ok, names := CheckComponents(m.value.components);
    if !ok || m.value.complete != (REQUIRED <= names) {
      return Refused;
    }
    r := Accepted(m.value);
  }

  /** A manifest of at most 256 KiB, under a snapshot identifier, that decodes to something loadable. */
  function Loaded(decode: Bytes -> Option<Manifest>, snapshot: string, output: Result<Chunks>): Result<Manifest> {
    if IsSnapshot(snapshot) && output.Accepted? && |Concat(output.value)| <= MAX_MANIFEST then
      var m := decode(Concat(output.value));
      if m.Some? && Loadable(m.value) then Accepted(m.value) else Refused
    else Refused
  }

  // ---------- printing and decoding ----------

  function ComponentJson(c: Component): Json {
    Obj([Pair("name", Str(c.name)), Pair("sha256", Str(c.sha256)), Pair("size", Num(c.size)),
         Pair("snapshot", Str(c.snapshot))])
  }

  function ComponentsJson(cs: seq<Component>): (r: seq<Json>)
    ensures |r| == |cs|
  {
    if cs == [] then [] else [ComponentJson(cs[0])] + ComponentsJson(cs[1..])
  }

  /** The manifest with its keys in order. */
  function ManifestJson(m: Manifest): Json {
    Obj([Pair("components", Arr(ComponentsJson(m.components))), Pair("created_at", Num(m.createdAt)),
         Pair("required_components_present", Bool(m.complete)), Pair("run_id", Str(m.runId)),
           Pair("schema_version", Num(m.schema))])
  }

  function Encode(s: string): (b: Bytes)
    ensures |b| == |s|
  {
    if s == [] then [] else [(s[0] as int % 256) as Byte] + Encode(s[1..])
  }

  function Decoded(b: Bytes): string {
    if b == [] then [] else [b[0] as char] + Decoded(b[1..])
  }

  lemma {:induction false} DecodedEncoded(s: string)
    requires Ascii(s)
    ensures Decoded(Encode(s)) == s
  {
    if s != [] { DecodedEncoded(s[1..]); }
  }

  /** `json.dumps` with sorted keys and compact separators, as bytes. */
  function Payload(m: Manifest): Bytes { Encode(Print(ManifestJson(m))) }

  function ComponentFrom(j: Json): Option<Component> {
    if !j.Obj? then None
    else
      var name, sha256, size, snapshot := Field(j.pairs, "name"), Field(j.pairs, "sha256"), Field(j.pairs, "size"),
        Field(j.pairs, "snapshot");
      if name.Some? && name.value.Str? && sha256.Some? && sha256.value.Str? && size.Some? && size.value.Num?
         && snapshot.Some? && snapshot.value.Str?
      then Some(Component(name.value.text, snapshot.value.text, size.value.number, sha256.value.text)) else None
  }

  function ComponentsFrom(items: seq<Json>): Option<seq<Component>> {
    if items == [] then Some([])
    else
      var first, more := ComponentFrom(items[0]), ComponentsFrom(items[1..]);
      if first.Some? && more.Some? then Some([first.value] + more.value) else None
  }

  /** The fields `load_manifest` looks at; the time of creation is not one of them. */
  function ManifestFrom(j: Json): Option<Manifest> {
    if !j.Obj? then None
    else
      var components, created, complete := Field(j.pairs, "components"), Field(j.pairs, "created_at"),
        Field(j.pairs, "required_components_present");
      var runId, schema := Field(j.pairs, "run_id"), Field(j.pairs, "schema_version");
      if components.Some? && components.value.Arr? && complete.Some? && complete.value.Bool? && runId.Some?
         && runId.value.Str? && schema.Some? && schema.value.Num?
      then
        var items := ComponentsFrom(components.value.items);
        var at := if created.Some? && created.value.Num? then created.value.number else 0;
        if items.Some?
           then Some(Manifest(schema.value.number, runId.value.text, at, complete.value.truth, items.value)) else None
      else None
  }

  /** The manifest some bytes spell out in JSON. */
  function Decode(b: Bytes): Option<Manifest> {
    var j := Loads(Decoded(b));
    if j.Some? then ManifestFrom(j.value) else None
  }

  lemma ComponentKeys()
    ensures "name" != "sha256" && "name" != "size" && "name" != "snapshot" && "sha256" != "size"
            && "sha256" != "snapshot" && "size" != "snapshot"
  {
    assert "name"[0] != "size"[0] && |"name"| == |"size"| == 4 && |"sha256"| == 6 && |"snapshot"| == 8;
  }

  lemma ComponentDecodes(c: Component)
    ensures ComponentFrom(ComponentJson(c)) == Some(c)
  {
    ComponentKeys();
    var pairs := ComponentJson(c).pairs;
    FieldAt(pairs, 0);
    FieldAt(pairs, 1);
    FieldAt(pairs, 2);
    FieldAt(pairs, 3);
  }

  lemma {:induction false} ComponentsDecode(cs: seq<Component>)
    ensures ComponentsFrom(ComponentsJson(cs)) == Some(cs)
  {
    if cs != [] {
      ComponentDecodes(cs[0]);
      ComponentsDecode(cs[1..]);
      assert ComponentsJson(cs)[1..] == ComponentsJson(cs[1..]);
      assert cs == [cs[0]] + cs[1..];
    }
  }

  lemma ManifestKeys()
    ensures "components" != "created_at" && "components" != "required_components_present" && "components" != "run_id"
            && "components" != "schema_version"
    ensures "created_at" != "required_components_present" && "created_at" != "run_id"
            && "created_at" != "schema_version"
    ensures "required_components_present" != "run_id" && "required_components_present" != "schema_version"
            && "run_id" != "schema_version"
  {
    assert "components"[1] != "created_at"[1] && |"components"| == |"created_at"| == 10;
    assert |"required_components_present"| == 27 && |"run_id"| == 6 && |"schema_version"| == 14;
  }

  lemma ManifestDecodes(m: Manifest)
    ensures ManifestFrom(ManifestJson(m)) == Some(m)
  {
    ManifestKeys();
    var pairs := ManifestJson(m).pairs;
    FieldAt(pairs, 0);
    FieldAt(pairs, 1);
    FieldAt(pairs, 2);
    FieldAt(pairs, 3);
    FieldAt(pairs, 4);
    ComponentsDecode(m.components);
  }

  lemma HexIsPlain(s: string, low: nat, high: nat)
    requires IsHex(s, low, high)
    ensures PlainText(s)
  {
  }

  lemma ComponentIsPlain(c: Component)
    requires ComponentOk(c)
    ensures Plain(ComponentJson(c))
  {
    HexIsPlain(c.snapshot, 8, 64);
    HexIsPlain(c.sha256, 64, 64);
    assert PlainText(c.name);
    AllPlain(ComponentJson(c).pairs);
  }

  lemma {:induction false} AllPlain(pairs: seq<Pair>)
    requires forall i :: 0 <= i < |pairs| ==> PlainPair(pairs[i])
    ensures PlainPairs(pairs)
  {
    if pairs != [] { AllPlain(pairs[1..]); }
  }

  lemma {:induction false} ComponentsArePlain(cs: seq<Component>)
    requires forall i :: 0 <= i < |cs| ==> ComponentOk(cs[i])
    ensures PlainItems(ComponentsJson(cs))
  {
    if cs != [] {
      ComponentIsPlain(cs[0]);
      ComponentsArePlain(cs[1..]);
    }
  }

  lemma ManifestIsPlain(m: Manifest)
    requires Loadable(m)
    ensures Plain(ManifestJson(m))
  {
    HexIsPlain(m.runId, 32, 32);
    ComponentsArePlain(m.components);
    PlainKeys();
    FivePlain(ManifestJson(m).pairs);
  }

  lemma PlainKeys()
    ensures PlainText("components") && PlainText("created_at") && PlainText("required_components_present")
    ensures PlainText("run_id") && PlainText("schema_version")
  {
  }

  lemma FivePlain(p: seq<Pair>)
    requires |p| == 5 && PlainPair(p[0]) && PlainPair(p[1]) && PlainPair(p[2]) && PlainPair(p[3]) && PlainPair(p[4])
    ensures PlainPairs(p)
  {
    AllPlain(p);
  }

  /** Every loadable manifest is decoded from its own payload. */
  lemma DecodeUndoesPayload(m: Manifest)
    requires Loadable(m)
    ensures Decode(Payload(m)) == Some(m)
  {
    ManifestIsPlain(m);
    PrintIsAscii(ManifestJson(m));
    DecodedEncoded(Print(ManifestJson(m)));
    LoadsUndoesPrinting(ManifestJson(m));
    ManifestDecodes(m);
  }

  // ---------- the payload's length ----------

  function Power(k: nat): nat { if k == 0 then 1 else 10 * Power(k - 1) }

  lemma {:induction false} DigitsShort(n: nat, k: nat)
    requires k > 0 && n < Power(k)
    ensures |Numerals.Digits(n, 10)| <= k
    decreases k
  {
    if n >= 10 {
      DigitsShort(n / 10, k - 1);
    }
  }

  lemma Powers()
    ensures Power(13) == 10_000_000_000_000 && Power(20) == 100_000_000_000_000_000_000
  {
    assert Power(13) == 10_000_000_000_000;
    assert Power(17) == 10_000 * Power(13);
    assert Power(20) == 1_000 * Power(17);
  }

  lemma ComponentShort(c: Component)
    requires ComponentOk(c)
    ensures |Print(ComponentJson(c))| <= 250
  {
    Powers();
    DigitsShort(c.size, 13);
    var p := ComponentJson(c).pairs;
    PairsLength(p);
    PairsLength(p[1..]);
    PairsLength(p[1..][1..]);
    PairsLength(p[1..][1..][1..]);
  }

  lemma {:induction false} ComponentsShort(cs: seq<Component>)
    requires forall i :: 0 <= i < |cs| ==> ComponentOk(cs[i])
    ensures |PrintItems(ComponentsJson(cs))| <= 251 * |cs| + 1
  {
    if cs != [] {
      ComponentShort(cs[0]);
      ComponentsShort(cs[1..]);
      ItemsLength(ComponentsJson(cs));
      assert ComponentsJson(cs)[1..] == ComponentsJson(cs[1..]);
    }
  }

  lemma ItemsLength(items: seq<Json>)
    requires items != []
    ensures |PrintItems(items)| <= |Print(items[0])| + 1 + |PrintItems(items[1..])|
  {
  }

  /** Every loadable manifest of this epoch prints well below the 256 KiB its reader accepts. */
  lemma PayloadFits(m: Manifest)
    requires Loadable(m) && 0 <= m.createdAt < TIME_LIMIT
    ensures |Payload(m)| <= 8400 < MAX_MANIFEST
  {
    ComponentsShort(m.components);
    Powers();
    DigitsShort(m.createdAt, 20);
    DigitsShort(1, 1);
    var p := ManifestJson(m).pairs;
    PairsLength(p);
    PairsLength(p[1..]);
    PairsLength(p[1..][1..]);
    PairsLength(p[1..][1..][1..]);
    PairsLength(p[1..][1..][1..][1..]);
  }
}
