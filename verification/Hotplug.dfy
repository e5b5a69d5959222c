/**
 The domain definition before and after an app disk is attached: which definitions `verify_addition`
 accepts, and where `disk_xml` plugs the disk in.

 XML names the tool looks at are constructors of `Name`; every other name is `Other`. Elements carry their
 attributes as a map, their text as it stands, and their children.
 */
module Hotplug {
  import opened Wrappers
  import opened Numerals
  import opened Texts

  datatype Name =
    | DomainName | NameName | UuidName | DevicesName | DiskName | ControllerName | DriverName | SourceName | TargetName
    | SerialName | AddressName | AliasName | BackingStoreName | ReadonlyName | ShareableName
    | TypeName | DeviceName | FileName | IndexName | DevName | BusName | SlotName | FunctionName | ModelName
    | HotplugName
    | Other(text: string)

  datatype Element = Element(tag: Name, attrs: map<Name, string>, text: string, children: seq<Element>)

  /** The guest the disk is for, and the disk it must get. */
  datatype Config = Config(name: string, uuid: string, path: string, serial: string)

  function Get(e: Element, attr: Name): Option<string> {
    if attr in e.attrs then Some(e.attrs[attr]) else None
  }

  function GetOr(e: Element, attr: Name, default: string): string {
    if attr in e.attrs then e.attrs[attr] else default
  }

  function Tagged(elements: seq<Element>, tag: Name): seq<Element> {
    if elements == [] then []
    else (if elements[0].tag == tag then [elements[0]] else []) + Tagged(elements[1..], tag)
  }

  function FindAll(e: Element, tag: Name): seq<Element> { Tagged(e.children, tag) }

  function FindText(e: Element, tag: Name): Option<string> {
    var found := FindAll(e, tag);
    if found == [] then None else Some(found[0].text)
  }

  // ---------- canonical form ----------

  function StripLeft(s: string): string { if s != [] && White(s[0]) then StripLeft(s[1..]) else s }
  function StripRight(s: string): string { if s != [] && White(s[|s| - 1]) then StripRight(s[..|s| - 1]) else s }

  /** `ET.canonicalize` with `strip_text`: white space around text does not count. */
  function Canon(e: Element): Element
    decreases e, 0
  {
    Element(e.tag, e.attrs, StripRight(StripLeft(e.text)), CanonAll(e.children))
  }

  function CanonAll(elements: seq<Element>): (r: seq<Element>)
    ensures |r| == |elements|
    decreases elements, 1
  {
    if elements == [] then [] else [Canon(elements[0])] + CanonAll(elements[1..])
  }

  lemma {:induction false} CanonTagged(elements: seq<Element>, tag: Name)
    ensures Tagged(CanonAll(elements), tag) == CanonAll(Tagged(elements, tag))
  {
    if elements != [] {
      CanonTagged(elements[1..], tag);
      assert CanonAll(elements)[1..] == CanonAll(elements[1..]);
      if elements[0].tag == tag {
        assert Tagged(elements, tag)[1..] == Tagged(elements[1..], tag);
      } else {
        assert Tagged(elements, tag) == Tagged(elements[1..], tag);
      }
    }
  }

  // ---------- the check ----------

  predicate DomainOk(root: Element, cfg: Config) {
    && root.tag == DomainName && Get(root, TypeName) == Some("kvm")
    && FindText(root, NameName) == Some(cfg.name) && FindText(root, UuidName) == Some(cfg.uuid)
    && |FindAll(root, DevicesName)| == 1
  }

  /** Position of the first child with a tag. */
  function IndexOf(elements: seq<Element>, tag: Name): (k: nat)
    requires Tagged(elements, tag) != []
    ensures k < |elements| && elements[k].tag == tag && elements[k] == Tagged(elements, tag)[0]
  {
    if elements[0].tag == tag then 0 else 1 + IndexOf(elements[1..], tag)
  }

  function Devices(root: Element): seq<Element>
    requires FindAll(root, DevicesName) != []
  {
    FindAll(root, DevicesName)[0].children
  }

  function WithDevices(root: Element, devices: seq<Element>): Element
    requires FindAll(root, DevicesName) != []
  {
    var k := IndexOf(root.children, DevicesName);
    root.(children := root.children[k := root.children[k].(children := devices)])
  }

  /** Looks like the app disk by serial, by file or by target. */
  predicate Resembles(d: Element, cfg: Config) {
    && d.tag == DiskName
    && (|| FindText(d, SerialName) == Some(cfg.serial)
        || (exists s | s in FindAll(d, SourceName) :: Get(s, FileName) == Some(cfg.path))
        || (exists t | t in FindAll(d, TargetName) :: Get(t, DevName) == Some("vdb")))
  }

  predicate OnlyDigits(s: string) { s != [] && forall i | 0 <= i < |s| :: '0' <= s[i] <= '9' }

  predicate AllowedPart(tag: Name) {
    tag in {DriverName, SourceName, TargetName, SerialName, AddressName, AliasName, BackingStoreName}
  }

  predicate SourceOk(source: Element, cfg: Config) {
    && Get(source, FileName) == Some(cfg.path) && source.attrs.Keys <= {FileName, IndexName}
    && (IndexName in source.attrs ==> OnlyDigits(source.attrs[IndexName]))
  }

  predicate TargetOk(target: Element) { target.attrs == map[DevName := "vdb", BusName := "virtio"] }

  predicate DriverOk(driver: Element) {
    Get(driver, NameName) == Some("qemu") && Get(driver, TypeName) == Some("qcow2")
  }

  predicate DiskOk(d: Element) {
    d.tag == DiskName && Get(d, TypeName) == Some("file") && Get(d, DeviceName) == Some("disk")
  }

  /** The exact app disk mapping. */
  predicate WellShaped(d: Element, cfg: Config) {
    && DiskOk(d)
    && |FindAll(d, SourceName)| == 1 && SourceOk(FindAll(d, SourceName)[0], cfg)
    && |FindAll(d, TargetName)| == 1 && TargetOk(FindAll(d, TargetName)[0])
    && |FindAll(d, DriverName)| == 1 && DriverOk(FindAll(d, DriverName)[0])
    && |FindAll(d, SerialName)| == 1 && FindAll(d, SerialName)[0].text == cfg.serial
    && FindAll(d, ReadonlyName) == [] && FindAll(d, ShareableName) == []
    && (forall c | c in d.children :: AllowedPart(c.tag))
    && (forall b | b in FindAll(d, BackingStoreName) :: b.children == [] && b.attrs == map[])
  }

  /** The devices a test picks out, by position. */
  function Picked(devices: seq<Element>, test: Element -> bool): seq<nat> {
    if devices == [] then []
    else
      var n := |devices| - 1;
      Picked(devices[..n], test) + if test(devices[n]) then [n] else []
  }

  lemma {:induction false} PickedIndices(devices: seq<Element>, test: Element -> bool)
    ensures forall k :: k in Picked(devices, test) <==> 0 <= k < |devices| && test(devices[k])
    ensures forall i, j :: 0 <= i < j < |Picked(devices, test)| ==> Picked(devices, test)[i] < Picked(devices, test)[j]
    decreases |devices|
  {
    if devices != [] {
      var init := devices[..|devices| - 1];
      PickedIndices(init, test);
      assert forall i :: 0 <= i < |Picked(init, test)| ==> Picked(init, test)[i] in Picked(init, test);
    }
  }

  function ResemblesTest(cfg: Config): Element -> bool { (d: Element) => Resembles(d, cfg) }

  function ShapeTest(cfg: Config): Element -> bool { (d: Element) => WellShaped(d, cfg) }

  function Without(devices: seq<Element>, k: nat): seq<Element>
    requires k < |devices|
  {
    devices[..k] + devices[k + 1..]
  }

  /** Exactly one device is picked, it has the shape, and without it the device list is the old one. */
  predicate AddedOnce(prior: seq<Element>, current: seq<Element>, pick: Element -> bool, shape: Element -> bool) {
    var candidates := Picked(current, pick);
    && |candidates| == 1
    && candidates[0] < |current| && shape(current[candidates[0]])
    && Without(current, candidates[0]) == prior
  }

  /** `verify_addition`: one candidate of the right shape, and nothing else changed. */
  predicate VerifyAddition(before: Element, after: Element, cfg: Config) {
    && DomainOk(after, cfg)
    && var candidates := Picked(Devices(after), ResemblesTest(cfg));
       && |candidates| == 1
       && candidates[0] < |Devices(after)| && ShapeTest(cfg)(Devices(after)[candidates[0]])
       && Canon(WithDevices(after, Without(Devices(after), candidates[0]))) == Canon(before)
  }

  // ---------- what the check means ----------

  function Inserted(devices: seq<Element>, j: nat, d: Element): seq<Element>
    requires j <= |devices|
  {
    devices[..j] + [d] + devices[j..]
  }

  ghost predicate NonePicked(devices: seq<Element>, pick: Element -> bool) {
    forall k :: 0 <= k < |devices| ==> !pick(devices[k])
  }

  ghost predicate NoneResembles(devices: seq<Element>, cfg: Config) { NonePicked(devices, ResemblesTest(cfg)) }

  /** `after` is `prior` with one well-shaped app disk put in among devices none of which looks like it. */
  ghost predicate AddedTo(prior: Element, after: Element, cfg: Config) {
    && DomainOk(prior, cfg) && NoneResembles(Devices(prior), cfg)
    && exists j: nat, d: Element :: InsertedAt(prior, after, j, d) && ShapeTest(cfg)(d)
  }

  /** `after` is `before`, up to white space around text, with one well-shaped app disk put in. */
  ghost predicate IsAddition(before: Element, after: Element, cfg: Config) {
    exists prior :: Canon(prior) == Canon(before) && AddedTo(prior, after, cfg)
  }

  ghost predicate InsertedAt(before: Element, after: Element, j: nat, d: Element) {
    && FindAll(before, DevicesName) != [] && j <= |Devices(before)|
    && after == WithDevices(before, Inserted(Devices(before), j, d))
  }

  lemma {:induction false} TaggedUpdate(elements: seq<Element>, k: nat, e: Element, tag: Name)
    requires k < |elements| && e.tag == elements[k].tag
    ensures |Tagged(elements[k := e], tag)| == |Tagged(elements, tag)|
    ensures e.tag != tag ==> Tagged(elements[k := e], tag) == Tagged(elements, tag)
    decreases |elements|
  {
    if k > 0 {
      assert elements[k := e][1..] == elements[1..][k - 1 := e];
      TaggedUpdate(elements[1..], k - 1, e, tag);
    } else {
      assert elements[k := e][1..] == elements[1..];
    }
  }

  lemma {:induction false} FirstUpdated(elements: seq<Element>, e: Element, tag: Name)
    requires Tagged(elements, tag) != [] && e.tag == tag
    ensures var k := IndexOf(elements, tag);
            && Tagged(elements[k := e], tag) != [] && Tagged(elements[k := e], tag)[0] == e
            && IndexOf(elements[k := e], tag) == k
    decreases |elements|
  {
    var k := IndexOf(elements, tag);
    if k > 0 {
      assert elements[k := e][1..] == elements[1..][k - 1 := e];
      FirstUpdated(elements[1..], e, tag);
    } else {
      assert elements[k := e][1..] == elements[1..];
    }
  }

  /** Replacing the device list touches nothing the identity check reads. */
  lemma ReplacedDevices(root: Element, devices: seq<Element>, cfg: Config)
    requires FindAll(root, DevicesName) != []
    ensures var r := WithDevices(root, devices);
            && FindAll(r, DevicesName) != [] && Devices(r) == devices
            && (DomainOk(r, cfg) <==> DomainOk(root, cfg))
            && forall other :: WithDevices(r, other) == WithDevices(root, other)
  {
    var k := IndexOf(root.children, DevicesName);
    var e := root.children[k].(children := devices);
    FirstUpdated(root.children, e, DevicesName);
    TaggedUpdate(root.children, k, e, NameName);
    TaggedUpdate(root.children, k, e, UuidName);
    TaggedUpdate(root.children, k, e, DevicesName);
    forall other
      ensures WithDevices(WithDevices(root, devices), other) == WithDevices(root, other)
    {
      ReplacedTwice(root, devices, other);
    }
  }

  lemma ReplacedTwice(root: Element, devices: seq<Element>, other: seq<Element>)
    requires FindAll(root, DevicesName) != [] && FindAll(WithDevices(root, devices), DevicesName) != []
    ensures WithDevices(WithDevices(root, devices), other) == WithDevices(root, other)
  {
    var k := IndexOf(root.children, DevicesName);
    var e := root.children[k].(children := devices);
    FirstUpdated(root.children, e, DevicesName);
    assert root.children[k := e][k := e.(children := other)]
      == root.children[k := root.children[k].(children := other)];
  }

  lemma SameDevices(root: Element)
    requires FindAll(root, DevicesName) != []
    ensures WithDevices(root, Devices(root)) == root
  {
  }

  lemma ShapeResembles(d: Element, cfg: Config)
    ensures ShapeTest(cfg)(d) ==> ResemblesTest(cfg)(d)
  {
  }

  lemma AscendingSingleton(s: seq<nat>, k: nat)
    requires forall i, j :: 0 <= i < j < |s| ==> s[i] < s[j]
    requires forall x :: x in s <==> x == k
    ensures s == [k]
  {
    assert k in s;
    assert |s| < 2 || s[0] < s[1];
    assert forall i :: 0 <= i < |s| ==> s[i] in s;
  }

  /** Inserting a picked device among unpicked ones makes it the only candidate. */
  lemma InsertedIsAdded(prior: seq<Element>, j: nat, d: Element, pick: Element -> bool, shape: Element -> bool)
    requires j <= |prior| && NonePicked(prior, pick) && pick(d) && shape(d)
    ensures AddedOnce(prior, Inserted(prior, j, d), pick, shape) && Picked(Inserted(prior, j, d), pick) == [j]
  {
    var current := Inserted(prior, j, d);
    PickedIndices(current, pick);
    forall x
      ensures x in Picked(current, pick) <==> x == j
    {
      if 0 <= x < |current| && x != j {
        assert current[x] == prior[if x < j then x else x - 1];
      }
    }
    AscendingSingleton(Picked(current, pick), j);
    assert Without(current, j) == prior;
  }

  lemma Reinserted(current: seq<Element>, j: nat)
    requires j < |current|
    ensures Inserted(Without(current, j), j, current[j]) == current
  {
    var prior := Without(current, j);
    assert prior[..j] == current[..j] && prior[j..] == current[j + 1..];
  }

  /** The only candidate was inserted among unpicked devices. */
  lemma AddedWasInserted(prior: seq<Element>, current: seq<Element>, pick: Element -> bool, shape: Element -> bool)
    requires AddedOnce(prior, current, pick, shape)
    ensures var j := Picked(current, pick)[0];
            j <= |prior| && NonePicked(prior, pick) && current == Inserted(prior, j, current[j]) && shape(current[j])
  {
    var candidates := Picked(current, pick);
    PickedIndices(current, pick);
    var j := candidates[0];
    assert candidates == [j];
    Reinserted(current, j);
    forall k | 0 <= k < |prior|
      ensures !pick(prior[k])
    {
      var x := if k < j then k else k + 1;
      assert prior[k] == current[x] && x !in candidates;
    }
  }

  lemma AdditionIsVerified(before: Element, prior: Element, after: Element, cfg: Config)
    requires Canon(prior) == Canon(before) && AddedTo(prior, after, cfg)
    ensures VerifyAddition(before, after, cfg)
  {
    var j, d :| InsertedAt(prior, after, j, d) && ShapeTest(cfg)(d);
    ShapeResembles(d, cfg);
    InsertedIsAdded(Devices(prior), j, d, ResemblesTest(cfg), ShapeTest(cfg));
    ReplacedDevices(prior, Inserted(Devices(prior), j, d), cfg);
    SameDevices(prior);
  }

  lemma VerifiedIsAddition(before: Element, after: Element, cfg: Config) returns (prior: Element)
    requires VerifyAddition(before, after, cfg)
    ensures Canon(prior) == Canon(before) && AddedTo(prior, after, cfg)
  {
    var current := Devices(after);
    var j := Picked(current, ResemblesTest(cfg))[0];
    var devices := Without(current, j);
    prior := WithDevices(after, devices);
    ReplacedDevices(after, devices, cfg);
    AddedWasInserted(devices, current, ResemblesTest(cfg), ShapeTest(cfg));
    SameDevices(after);
    assert InsertedAt(prior, after, j, current[j]);
  }

  /**
   The check accepts exactly the old definition, up to white space around text, with one correct app disk inserted.
   */
  lemma VerifyAdditionExact(before: Element, after: Element, cfg: Config)
    ensures VerifyAddition(before, after, cfg) <==> IsAddition(before, after, cfg)
  {
    if VerifyAddition(before, after, cfg) {
      var prior := VerifiedIsAddition(before, after, cfg);
    }
    if IsAddition(before, after, cfg) {
      var prior :| Canon(prior) == Canon(before) && AddedTo(prior, after, cfg);
      AdditionIsVerified(before, prior, after, cfg);
    }
  }

  // ---------- the free slot ----------

  datatype Position = Position(bus: nat, slot: nat)

  predicate IsPci(address: Element) { address.tag == AddressName && Get(address, TypeName) == Some("pci") }

  function PositionOf(address: Element): Option<Position> {
    var bus, slot := ParseLiteral(GetOr(address, BusName, "0")), ParseLiteral(GetOr(address, SlotName, "0"));
    if bus.Some? && slot.Some? then Some(Position(bus.value, slot.value)) else None
  }

  ghost predicate IsPciAddress(devices: seq<Element>, a: Element) {
    exists i :: 0 <= i < |devices| && a in devices[i].children && IsPci(a)
  }

  /** Some device sits at this position. */
  ghost predicate Occupied(devices: seq<Element>, p: Position) {
    exists a :: IsPciAddress(devices, a) && PositionOf(a) == Some(p)
  }

  ghost predicate AddressesReadable(devices: seq<Element>) {
    forall a :: IsPciAddress(devices, a) ==> PositionOf(a).Some?
  }

  /** The positions taken by readable PCI addresses. */
  function UsedBy(devices: seq<Element>): set<Position> {
    set i, k | 0 <= i < |devices| && 0 <= k < |devices[i].children|
               && IsPci(devices[i].children[k]) && PositionOf(devices[i].children[k]).Some?
      :: PositionOf(devices[i].children[k]).value
  }

  lemma UsedIsOccupied(devices: seq<Element>, p: Position)
    ensures p in UsedBy(devices) <==> Occupied(devices, p)
  {
    if Occupied(devices, p) {
      var a :| IsPciAddress(devices, a) && PositionOf(a) == Some(p);
      var i :| 0 <= i < |devices| && a in devices[i].children;
      var k :| 0 <= k < |devices[i].children| && devices[i].children[k] == a;
      assert PositionOf(devices[i].children[k]).value in UsedBy(devices);
    }
    if p in UsedBy(devices) {
      var i, k :| 0 <= i < |devices| && 0 <= k < |devices[i].children| && IsPci(devices[i].children[k])
                  && PositionOf(devices[i].children[k]) == Some(p);
      assert IsPciAddress(devices, devices[i].children[k]);
    }
  }

  predicate IsPciController(c: Element) { c.tag == ControllerName && Get(c, TypeName) == Some("pci") }

  /** A hotpluggable root port with a bus of its own. */
  predicate RootPort(c: Element) {
    && IsPciController(c) && Get(c, ModelName) == Some("pcie-root-port") && OnlyDigits(GetOr(c, IndexName, ""))
    && (forall t | t in FindAll(c, TargetName) :: GetOr(t, HotplugName, "on") == "on")
  }

  predicate KnownModel(c: Element) {
    Get(c, ModelName) in {Some("pci-root"), Some("pcie-root"), Some("pcie-root-port")}
  }

  function BusOf(c: Element): nat
    requires OnlyDigits(GetOr(c, IndexName, ""))
  {
    var n := ParseDigits(GetOr(c, IndexName, ""), 10);
    if n.Some? then n.value else 0
  }

  predicate LegacyRoot(controllers: seq<Element>) {
    && |controllers| == 1 && Get(controllers[0], ModelName) == Some("pci-root")
      && Get(controllers[0], IndexName) == Some("0")
  }

  function PciControllers(devices: seq<Element>): seq<Element> {
    if devices == [] then []
    else (if IsPciController(devices[0]) then [devices[0]] else []) + PciControllers(devices[1..])
  }

  function ControllerKey(c: Element): (Option<string>, Option<string>) { (Get(c, TypeName), Get(c, IndexName)) }

  predicate DistinctControllers(devices: seq<Element>) {
    var cs := Tagged(devices, ControllerName);
    forall i, j | 0 <= i < j < |cs| :: ControllerKey(cs[i]) != ControllerKey(cs[j])
  }

  /** A place `disk_xml` may use: an empty root port, or a free slot of the single legacy root. */
  ghost predicate Usable(devices: seq<Element>, p: Position) {
    var cs := PciControllers(devices);
    if LegacyRoot(cs) then p.bus == 0 && 1 <= p.slot < 32 && !Occupied(devices, p)
    else
      && p.bus != 0 && p.slot == 0
      && (exists c :: c in cs && RootPort(c) && BusOf(c) == p.bus)
      && (forall slot :: !Occupied(devices, Position(p.bus, slot)))
  }

  function Leaf(tag: Name, attrs: map<Name, string>): Element { Element(tag, attrs, "", []) }

  /** The device `disk_xml` asks for. */
  function AppDisk(cfg: Config, p: Position): Element {
    Element(DiskName, map[TypeName := "file", DeviceName := "disk"], "",
      [Leaf(DriverName, map[NameName := "qemu", TypeName := "qcow2"]),
       Leaf(SourceName, map[FileName := cfg.path]),
       Leaf(TargetName, map[DevName := "vdb", BusName := "virtio"]),
       Element(SerialName, map[], cfg.serial, []),
       Leaf(AddressName,
            map[TypeName := "pci", DomainName := "0x0000", BusName := Hex(p.bus), SlotName := Hex(p.slot),
                FunctionName := "0x0"])])
  }

  /** Empty root ports, in controller order. */
  function PortPositions(controllers: seq<Element>, used: set<Position>): seq<Position> {
    if controllers == [] then []
    else
      var n := |controllers| - 1;
      PortPositions(controllers[..n], used)
      + if RootPort(controllers[n]) && BusOf(controllers[n]) != 0
        && !(exists q | q in used :: q.bus == BusOf(controllers[n]))
        then [Position(BusOf(controllers[n]), 0)] else []
  }

  /** Free slots below `n` of the legacy root, in slot order. */
  function SlotPositions(used: set<Position>, n: nat): seq<Position>
    requires n >= 1
  {
    if n == 1 then [] else SlotPositions(used, n - 1) + if Position(0, n - 1) !in used then [Position(0, n - 1)] else []
  }

  function CandidateList(devices: seq<Element>): seq<Position> {
    if LegacyRoot(PciControllers(devices)) then SlotPositions(UsedBy(devices), 32)
    else PortPositions(PciControllers(devices), UsedBy(devices))
  }

  /** The device `disk_xml` returns, when it returns one. */
  ghost function RequestFor(before: Element, cfg: Config): Option<Element> {
    if Ready(before, cfg) && CandidateList(Devices(before)) != []
    then Some(AppDisk(cfg, CandidateList(Devices(before))[0])) else None
  }

  ghost predicate Ready(before: Element, cfg: Config) {
    && DomainOk(before, cfg) && NoneResembles(Devices(before), cfg) && DistinctControllers(Devices(before))
    && AddressesReadable(Devices(before))
    && (forall c :: c in PciControllers(Devices(before)) ==> KnownModel(c))
  }

  method UsedPositions(devices: seq<Element>) returns (r: Result<set<Position>>)
    ensures r.Accepted? <==> AddressesReadable(devices)
    ensures r.Accepted? ==> r.value == UsedBy(devices)
  {
    var used: set<Position> := {};
    for i := 0 to |devices|
      invariant forall a :: IsPciAddress(devices[..i], a) ==> PositionOf(a).Some?
      invariant forall p :: p in used <==> Occupied(devices[..i], p)
    {
      var parts := devices[i].children;
      ghost var start := used;
      for k := 0 to |parts|
        invariant forall a :: a in parts[..k] && IsPci(a) ==> PositionOf(a).Some?
        invariant forall p :: p in used <==>
                    p in start || exists a :: a in parts[..k] && IsPci(a) && PositionOf(a) == Some(p)
      {
        assert parts[..k + 1] == parts[..k] + [parts[k]];
        if IsPci(parts[k]) {
          var p := PositionOf(parts[k]);
          if p.None? {
            assert IsPciAddress(devices, parts[k]);
            return Refused;
          }
          used := used + {p.value};
        }
      }
      assert parts[..|parts|] == parts;
      forall a
        ensures IsPciAddress(devices[..i + 1], a) <==> IsPciAddress(devices[..i], a) || (a in parts && IsPci(a))
      {
        PciAddressSnoc(devices, i, a);
      }
    }
    assert devices[..|devices|] == devices;
    forall p
      ensures p in used <==> p in UsedBy(devices)
    {
      UsedIsOccupied(devices, p);
    }
    r := Accepted(used);
  }

  lemma PciAddressSnoc(devices: seq<Element>, i: nat, a: Element)
    requires i < |devices|
    ensures IsPciAddress(devices[..i + 1], a) <==>
              IsPciAddress(devices[..i], a) || (a in devices[i].children && IsPci(a))
  {
    if IsPciAddress(devices[..i], a) {
      var k :| 0 <= k < i && a in devices[..i][k].children && IsPci(a);
      assert devices[..i + 1][k] == devices[..i][k];
    }
    if a in devices[i].children && IsPci(a) {
      assert devices[..i + 1][i] == devices[i];
    }
    if IsPciAddress(devices[..i + 1], a) && !(a in devices[i].children && IsPci(a)) {
      var k :| 0 <= k < i + 1 && a in devices[..i + 1][k].children && IsPci(a);
      assert devices[..i][k] == devices[..i + 1][k];
    }
  }

  method RootPortCandidates(controllers: seq<Element>, used: set<Position>) returns (candidates: seq<Position>)
    ensures candidates == PortPositions(controllers, used)
  {
    candidates := [];
    for i := 0 to |controllers|
      invariant candidates == PortPositions(controllers[..i], used)
    {
      assert controllers[..i + 1][..i] == controllers[..i];
      if RootPort(controllers[i]) {
        var bus := BusOf(controllers[i]);
        if bus != 0 && !(exists q | q in used :: q.bus == bus) {
          candidates := candidates + [Position(bus, 0)];
        }
      }
    }
    assert controllers[..|controllers|] == controllers;
  }

  method LegacyCandidates(used: set<Position>) returns (candidates: seq<Position>)
    ensures candidates == SlotPositions(used, 32)
  {
    candidates := [];
    for s := 1 to 32
      invariant candidates == SlotPositions(used, s)
    {
      if Position(0, s) !in used {
        candidates := candidates + [Position(0, s)];
      }
    }
  }

  lemma {:induction false} PortPositionsAre(controllers: seq<Element>, used: set<Position>, p: Position)
    ensures p in PortPositions(controllers, used) <==>
      && p.bus != 0 && p.slot == 0 && (forall q :: q in used ==> q.bus != p.bus)
      && exists c :: c in controllers && RootPort(c) && BusOf(c) == p.bus
    decreases |controllers|
  {
    if controllers != [] {
      var n := |controllers| - 1;
      PortPositionsAre(controllers[..n], used, p);
      assert controllers == controllers[..n] + [controllers[n]];
    }
  }

  lemma {:induction false} SlotPositionsAre(used: set<Position>, n: nat, p: Position)
    requires n >= 1
    ensures p in SlotPositions(used, n) <==> p.bus == 0 && 1 <= p.slot < n && p !in used
    decreases n
  {
    if n > 1 {
      SlotPositionsAre(used, n - 1, p);
    }
  }

  /** The list tried by `disk_xml` holds exactly the usable positions. */
  lemma CandidatesAreUsable(devices: seq<Element>, p: Position)
    ensures p in CandidateList(devices) <==> Usable(devices, p)
  {
    forall q { UsedIsOccupied(devices, q); }
    BusFree(devices, UsedBy(devices), p.bus);
    PortPositionsAre(PciControllers(devices), UsedBy(devices), p);
    SlotPositionsAre(UsedBy(devices), 32, p);
  }

  /** All usable positions, in the order they are tried. */
  method Candidates(devices: seq<Element>) returns (r: Result<seq<Position>>)
    ensures r.Accepted? <==> AddressesReadable(devices)
    ensures r.Accepted? ==> r.value == CandidateList(devices)
  {
    var pci := PciControllers(devices);
    var used := UsedPositions(devices);
    if used.Refused? {
      return Refused;
    }
    var candidates := RootPortCandidates(pci, used.value);
    if LegacyRoot(pci) {
      candidates := LegacyCandidates(used.value);
    }
    r := Accepted(candidates);
  }

  lemma AppendedIsVerified(before: Element, cfg: Config, p: Position)
    requires DomainOk(before, cfg) && NoneResembles(Devices(before), cfg)
    ensures VerifyAddition(before, WithDevices(before, Devices(before) + [AppDisk(cfg, p)]), cfg)
  {
    AppDiskIsShaped(cfg, p);
    ShapedIsVerified(before, cfg, AppDisk(cfg, p));
  }

  lemma AppendIsInsert(devices: seq<Element>, d: Element)
    ensures Inserted(devices, |devices|, d) == devices + [d]
  {
  }

  lemma InsertedIsAddition(before: Element, after: Element, cfg: Config, j: nat, d: Element)
    requires DomainOk(before, cfg) && NoneResembles(Devices(before), cfg) && InsertedAt(before, after, j, d)
             && ShapeTest(cfg)(d)
    ensures AddedTo(before, after, cfg)
  {
  }

  lemma ShapedIsVerified(before: Element, cfg: Config, d: Element)
    requires DomainOk(before, cfg) && NoneResembles(Devices(before), cfg) && ShapeTest(cfg)(d)
    ensures VerifyAddition(before, WithDevices(before, Devices(before) + [d]), cfg)
  {
    var n := |Devices(before)|;
    var after := WithDevices(before, Inserted(Devices(before), n, d));
    InsertedIsAddition(before, after, cfg, n, d);
    AdditionIsVerified(before, before, after, cfg);
    AppendIsInsert(Devices(before), d);
  }

  /** The reviews `disk_xml` makes before it picks a position. */
  method Admit(before: Element, cfg: Config) returns (r: Result<seq<Position>>)
    ensures r.Accepted? <==> Ready(before, cfg) && CandidateList(Devices(before)) != []
    ensures r.Accepted? ==> r.value == CandidateList(Devices(before))
  {
    if !DomainOk(before, cfg) {
      return Refused;
    }
    if exists k | 0 <= k < |Devices(before)| :: ResemblesTest(cfg)(Devices(before)[k]) {
      return Refused;
    }
    r := AdmitControllers(Devices(before));
  }

  method AdmitControllers(devices: seq<Element>) returns (r: Result<seq<Position>>)
    ensures r.Accepted? <==>
              && DistinctControllers(devices) && AddressesReadable(devices) && CandidateList(devices) != []
              && (forall c :: c in PciControllers(devices) ==> KnownModel(c))
    ensures r.Accepted? ==> r.value == CandidateList(devices)
  {
    if !DistinctControllers(devices) {
      return Refused;
    }
    r := Candidates(devices);
    if r.Refused? || r.value == [] || !(forall c | c in PciControllers(devices) :: KnownModel(c)) {
      return Refused;
    }
  }

  /** `disk_xml`: the app disk at the first usable position; its own final check never refuses. */
  method DiskXml(before: Element, cfg: Config) returns (r: Result<Element>)
    ensures r == if RequestFor(before, cfg).Some? then Accepted(RequestFor(before, cfg).value) else Refused
  {
    var candidates := Admit(before, cfg);
    if candidates.Refused? {
      return Refused;
    }
    var p := candidates.value[0];
    AppendedIsVerified(before, cfg, p);
    if !VerifyAddition(before, WithDevices(before, Devices(before) + [AppDisk(cfg, p)]), cfg) {
      return Refused;
    }
    r := Accepted(AppDisk(cfg, p));
  }

  /**
   What `disk_xml` answers: an app disk at a position no existing device uses, acceptable to
   `verify_addition` when appended. It answers exactly when the definition is ready and a position is usable.
   */
  lemma RequestIsSafe(before: Element, cfg: Config)
    ensures RequestFor(before, cfg).Some? <==> Ready(before, cfg) && exists p :: Usable(Devices(before), p)
    ensures RequestFor(before, cfg).Some? ==>
              && VerifyAddition(before, WithDevices(before, Devices(before) + [RequestFor(before, cfg).value]), cfg)
              && exists p :: RequestFor(before, cfg).value == AppDisk(cfg, p) && Usable(Devices(before), p)
  {
    if Ready(before, cfg) {
      var list := CandidateList(Devices(before));
      SomeCandidate(Devices(before));
      if list != [] {
        AppendedIsVerified(before, cfg, list[0]);
      }
    }
  }

  lemma SomeCandidate(devices: seq<Element>)
    ensures CandidateList(devices) != [] <==> exists p :: Usable(devices, p)
    ensures CandidateList(devices) != [] ==> Usable(devices, CandidateList(devices)[0])
  {
    forall p { CandidatesAreUsable(devices, p); }
    if CandidateList(devices) != [] { assert CandidateList(devices)[0] in CandidateList(devices); }
  }

  /** An unchanged definition is never an addition: the device count grows by one. */
  lemma AdditionGrows(before: Element, after: Element, cfg: Config)
    requires VerifyAddition(before, after, cfg)
    ensures |FindAll(before, DevicesName)| == 1 && |FindAll(after, DevicesName)| == 1
    ensures |Devices(after)| == |Devices(before)| + 1
  {
    var prior := VerifiedIsAddition(before, after, cfg);
    AddedGrows(prior, after, cfg);
    CanonDevices(prior);
    CanonDevices(before);
  }

  lemma AddedGrows(prior: Element, after: Element, cfg: Config)
    requires AddedTo(prior, after, cfg)
    ensures |FindAll(prior, DevicesName)| == 1 && |FindAll(after, DevicesName)| == 1
    ensures |Devices(after)| == |Devices(prior)| + 1
  {
    var j, d :| InsertedAt(prior, after, j, d) && ShapeTest(cfg)(d);
    ReplacedDevices(prior, Inserted(Devices(prior), j, d), cfg);
  }

  lemma CanonDevices(root: Element)
    ensures |FindAll(Canon(root), DevicesName)| == |FindAll(root, DevicesName)|
    ensures FindAll(root, DevicesName) != [] ==> |Devices(Canon(root))| == |Devices(root)|
  {
    CanonTagged(root.children, DevicesName);
  }

  lemma BusFree(devices: seq<Element>, used: set<Position>, bus: nat)
    requires forall p :: p in used <==> Occupied(devices, p)
    ensures (forall q :: q in used ==> q.bus != bus) <==> (forall slot :: !Occupied(devices, Position(bus, slot)))
  {
    if forall slot :: !Occupied(devices, Position(bus, slot)) {
      forall q | q in used
        ensures q.bus != bus
      {
        assert q == Position(q.bus, q.slot);
      }
    }
  }

  lemma AppDiskIsShaped(cfg: Config, p: Position)
    ensures ShapeTest(cfg)(AppDisk(cfg, p))
  {
    PartsMakeDisk(AppDisk(cfg, p), cfg);
  }

  lemma PartsMakeDisk(d: Element, cfg: Config)
    requires DiskOk(d) && |d.children| == 5
    requires d.children[0].tag == DriverName && DriverOk(d.children[0])
    requires d.children[1].tag == SourceName && SourceOk(d.children[1], cfg)
    requires d.children[2].tag == TargetName && TargetOk(d.children[2])
    requires d.children[3].tag == SerialName && d.children[3].text == cfg.serial
    requires d.children[4].tag == AddressName
    ensures ShapeTest(cfg)(d)
  {
    AppDiskParts(d.children);
    forall c | c in d.children
      ensures AllowedPart(c.tag)
    {
    }
  }

  lemma {:induction false} NoneTagged(elements: seq<Element>, tag: Name)
    requires forall k :: 0 <= k < |elements| ==> elements[k].tag != tag
    ensures Tagged(elements, tag) == []
  {
    if elements != [] { NoneTagged(elements[1..], tag); }
  }

  lemma {:induction false} OnlyTagged(elements: seq<Element>, tag: Name, i: nat)
    requires i < |elements| && forall k :: 0 <= k < |elements| ==> (elements[k].tag == tag <==> k == i)
    ensures Tagged(elements, tag) == [elements[i]]
  {
    if i == 0 {
      NoneTagged(elements[1..], tag);
    } else {
      OnlyTagged(elements[1..], tag, i - 1);
    }
  }

  lemma AppDiskParts(c: seq<Element>)
    requires |c| == 5
    requires c[0].tag == DriverName && c[1].tag == SourceName && c[2].tag == TargetName && c[3].tag == SerialName
             && c[4].tag == AddressName
    ensures Tagged(c, DriverName) == [c[0]] && Tagged(c, SourceName) == [c[1]] && Tagged(c, TargetName) == [c[2]]
    ensures Tagged(c, SerialName) == [c[3]]
    ensures Tagged(c, ReadonlyName) == [] && Tagged(c, ShareableName) == [] && Tagged(c, BackingStoreName) == []
  {
    OnlyTagged(c, DriverName, 0);
    OnlyTagged(c, SourceName, 1);
    OnlyTagged(c, TargetName, 2);
    OnlyTagged(c, SerialName, 3);
    NoneTagged(c, ReadonlyName);
    NoneTagged(c, ShareableName);
    NoneTagged(c, BackingStoreName);
  }

  /** The new disk never shares a position with a device that was there before, and afterwards takes its own. */
  lemma PositionTaken(devices: seq<Element>, cfg: Config, p: Position)
    requires Usable(devices, p)
    ensures !Occupied(devices, p)
    ensures forall q :: Occupied(devices + [AppDisk(cfg, p)], q) <==> Occupied(devices, q) || q == p
  {
    AppDiskAddress(cfg, p);
    AppendedPosition(devices, AppDisk(cfg, p), AppDisk(cfg, p).children[4], p);
    assert p == Position(p.bus, p.slot);
  }

  /** The disk's only PCI address reads as its position. */
  lemma AppDiskAddress(cfg: Config, p: Position)
    ensures var d := AppDisk(cfg, p);
            && IsPci(d.children[4]) && PositionOf(d.children[4]) == Some(p)
            && forall a :: a in d.children && IsPci(a) ==> a == d.children[4]
  {
    HexRoundTrip(p.bus);
    HexRoundTrip(p.slot);
  }

  lemma AppendedPosition(devices: seq<Element>, d: Element, address: Element, p: Position)
    requires address in d.children && IsPci(address) && PositionOf(address) == Some(p)
    requires forall a :: a in d.children && IsPci(a) ==> a == address
    ensures forall q :: Occupied(devices + [d], q) <==> Occupied(devices, q) || q == p
  {
    var all := devices + [d];
    assert all[..|devices| + 1] == all && all[..|devices|] == devices;
    forall a
      ensures IsPciAddress(all, a) <==> IsPciAddress(devices, a) || a == address
    {
      PciAddressSnoc(all, |devices|, a);
    }
    assert IsPciAddress(all, address);
  }
}
