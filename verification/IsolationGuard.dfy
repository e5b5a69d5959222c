/**
 The DEV isolation guard: the rules `firewall` asks the kernel for, and what they let through.
 */
module IsolationGuard {
  import opened Wrappers
  import opened Nft
  import opened GuardCanonical
  import opened Sequences

  datatype Cidr = Cidr(text: string, network: nat, length: nat)

  /** The part of the deployment profile the guard depends on. */
  datatype Profile = Profile(bridge: string, underlay: Cidr, gateway: nat, production: seq<Cidr>)

  function Ip(a: nat, b: nat, c: nat, d: nat): nat {
    ((a * 256 + b) * 256 + c) * 256 + d
  }

  function BlockedCidrs(): seq<Cidr> {
    [Cidr("0.0.0.0/8", Ip(0, 0, 0, 0), 8), Cidr("10.0.0.0/8", Ip(10, 0, 0, 0), 8),
     Cidr("100.64.0.0/10", Ip(100, 64, 0, 0), 10), Cidr("127.0.0.0/8", Ip(127, 0, 0, 0), 8),
     Cidr("169.254.0.0/16", Ip(169, 254, 0, 0), 16), Cidr("172.16.0.0/12", Ip(172, 16, 0, 0), 12),
     Cidr("192.0.0.0/24", Ip(192, 0, 0, 0), 24), Cidr("192.0.2.0/24", Ip(192, 0, 2, 0), 24),
     Cidr("192.88.99.0/24", Ip(192, 88, 99, 0), 24), Cidr("192.168.0.0/16", Ip(192, 168, 0, 0), 16),
     Cidr("198.18.0.0/15", Ip(198, 18, 0, 0), 15), Cidr("198.51.100.0/24", Ip(198, 51, 100, 0), 24),
     Cidr("203.0.113.0/24", Ip(203, 0, 113, 0), 24), Cidr("224.0.0.0/4", Ip(224, 0, 0, 0), 4),
     Cidr("240.0.0.0/4", Ip(240, 0, 0, 0), 4)]
  }

  // ---------- the requested document ----------

  /** One call of the inner `rule` helper. */
  datatype RuleSpec = RuleSpec(conds: seq<Cond>, verdict: Stmt, comment: string)

  function Is(left: Load, right: Operand): Cond { Cond("==", left, right) }

  function InCidr(left: Load, cidr: Cidr): Cond { Cond("==", left, Prefix(cidr.network, cidr.length)) }

  const SADDR := Payload("ip", "saddr")
  const DADDR := Payload("ip", "daddr")

  function Guest(p: Profile): Cond { Is(Meta("iifname"), Lit(Text(p.bridge))) }
  function ToGuest(p: Profile): Cond { Is(Meta("oifname"), Lit(Text(p.bridge))) }
  function Ipv6(): Cond { Is(NFPROTO, Lit(Text("ipv6"))) }
  function Source(p: Profile): Cond { InCidr(SADDR, p.underlay) }
  function Spoofed(p: Profile): Cond { Cond("!=", SADDR, Prefix(p.underlay.network, p.underlay.length)) }
  function Established(): Cond { Cond("in", Ct("state"), Lit(Text("established"))) }
  function Reply(): Cond { Is(Ct("direction"), Lit(Text("reply"))) }
  function Gateway(p: Profile): Cond { Is(DADDR, Lit(Addr(p.gateway))) }
  function Proto(protocol: string): Cond { Is(L4PROTO, Lit(Text(protocol))) }

  function DhcpConds(p: Profile): seq<Cond> {
    [Guest(p), Proto("udp"), Is(Payload("udp", "sport"), Lit(Num(68))), Is(Payload("udp", "dport"), Lit(Num(67))),
     Is(SADDR, AnyOf([Lit(Addr(0)), Prefix(p.underlay.network, p.underlay.length)])),
     Is(DADDR, AnyOf([Lit(Addr(p.gateway)), Lit(Addr(Ip(255, 255, 255, 255)))]))]
  }

  function DnsConds(p: Profile, protocol: string): seq<Cond> {
    [Guest(p), Source(p), Gateway(p), Proto(protocol), Is(Payload(protocol, "dport"), Lit(Num(53)))]
  }

  function DenyIpv6(p: Profile): RuleSpec { RuleSpec([Guest(p), Ipv6()], Drop, "hetero-dev: deny guest IPv6") }

  function InputRest(p: Profile): seq<RuleSpec> {
    [RuleSpec(DhcpConds(p), Accept, "hetero-dev: DHCP only"),
     RuleSpec([Guest(p), Spoofed(p)], Drop, "hetero-dev: deny spoofed source"),
     RuleSpec([Guest(p), Source(p), Established(), Reply()], Accept, "hetero-dev: host-initiated management replies"),
     RuleSpec(DnsConds(p, "udp"), Accept, "hetero-dev: DNS to own gateway only"),
     RuleSpec(DnsConds(p, "tcp"), Accept, "hetero-dev: DNS to own gateway only"),
     RuleSpec([Guest(p)], Drop, "hetero-dev: deny other host services")]
  }

  function ForwardHead(p: Profile): seq<RuleSpec> {
    [RuleSpec([ToGuest(p), Ipv6()], Drop, "hetero-dev: deny inbound IPv6"),
     RuleSpec([Guest(p), Spoofed(p)], Drop, "hetero-dev: deny spoofed source"),
     RuleSpec([Guest(p), ToGuest(p), Source(p), InCidr(DADDR, p.underlay)], Accept, "hetero-dev: own subnet only")]
  }

  function Excluded(p: Profile): seq<Cidr> { BlockedCidrs() + p.production }

  function ExclusionRule(p: Profile, cidr: Cidr): RuleSpec {
    RuleSpec([Guest(p), InCidr(DADDR, cidr)], Drop, "hetero-dev: deny destination " + cidr.text)
  }

  function Exclusions(p: Profile, cidrs: seq<Cidr>): (r: seq<RuleSpec>)
    ensures |r| == |cidrs|
    ensures forall i :: 0 <= i < |r| ==> r[i] == ExclusionRule(p, cidrs[i])
  {
    seq(|cidrs|, i requires 0 <= i < |cidrs| => ExclusionRule(p, cidrs[i]))
  }

  function ForwardTail(p: Profile): seq<RuleSpec> {
    [RuleSpec([Guest(p), Source(p)], Accept, "hetero-dev: public IPv4 Internet after exclusions"),
     RuleSpec([Guest(p)], Drop, "hetero-dev: deny other guest forwarding"),
     RuleSpec([ToGuest(p), Established(), Reply()], Accept, "hetero-dev: Internet replies only"),
     RuleSpec([ToGuest(p)], Drop, "hetero-dev: deny unsolicited forwarded ingress")]
  }

  function BridgeRule(p: Profile, key: string): RuleSpec {
    RuleSpec([Is(Meta(key), Lit(Text(p.bridge))), Is(Payload("ether", "type"), Lit(Text("ip6")))], Drop,
             "hetero-dev: deny L2 IPv6")
  }

  function BridgeKeys(hook: string): seq<string> {
    if hook == "input" then ["ibrname"] else if hook == "output" then ["obrname"] else ["ibrname", "obrname"]
  }

  function BridgeRules(p: Profile, keys: seq<string>): (r: seq<RuleSpec>)
    ensures |r| == |keys|
    ensures forall i :: 0 <= i < |r| ==> r[i] == BridgeRule(p, keys[i])
  {
    seq(|keys|, i requires 0 <= i < |keys| => BridgeRule(p, keys[i]))
  }

  function Conjunction(conds: seq<Cond>): Expr {
    if conds == [] then [] else [Match(conds[0])] + Conjunction(conds[1..])
  }

  function ExprOf(spec: RuleSpec): Expr { Conjunction(spec.conds) + [spec.verdict] }

  function TableEntry(family: string): Entry { Object(true, Table(family, TABLE, map[])) }

  function ChainFields(hook: string): map<string, string> {
    map["type" := "filter", "hook" := hook, "prio" := "-10", "policy" := "accept"]
  }

  function ChainEntry(family: string, name: string): Entry {
    Object(true, Chain(family, TABLE, name, ChainFields(name)))
  }

  function RuleEntry(family: string, chain: string, spec: RuleSpec): Entry {
    Object(true, Rule(family, TABLE, chain, ExprOf(spec), map["comment" := spec.comment]))
  }

  function RuleEntries(family: string, chain: string, specs: seq<RuleSpec>): seq<Entry> {
    if specs == [] then [] else [RuleEntry(family, chain, specs[0])] + RuleEntries(family, chain, specs[1..])
  }

  /** A chain declaration and the rules sent right after it. */
  function Section(family: string, hook: string, specs: seq<RuleSpec>): Document {
    [ChainEntry(family, hook)] + RuleEntries(family, hook, specs)
  }

  function Tables(): Document { [TableEntry("inet"), TableEntry("bridge")] }

  /** The rules of the batch, by the place they are sent from. */
  datatype Batch = Batch(opening: seq<RuleSpec>, input: seq<RuleSpec>, forward: seq<RuleSpec>,
                         bridgeInput: seq<RuleSpec>, bridgeForward: seq<RuleSpec>, bridgeOutput: seq<RuleSpec>)

  function OpeningPart(b: Batch): Document {
    Tables() + Section("inet", "input", b.opening) + Section("inet", "forward", b.opening)
  }

  function InetPart(b: Batch): Document {
    RuleEntries("inet", "input", b.input) + RuleEntries("inet", "forward", b.forward)
  }

  function BridgePart(b: Batch): Document {
    Section("bridge", "input", b.bridgeInput) + Section("bridge", "forward", b.bridgeForward)
    + Section("bridge", "output", b.bridgeOutput)
  }

  function Assemble(b: Batch): Document { OpeningPart(b) + InetPart(b) + BridgePart(b) }

  /** The rules of one chain, in the order the kernel tries them. */
  function SpecsAt(b: Batch, family: string, chain: string): seq<RuleSpec> {
    if family == "inet" then
      if chain == "input" then b.opening + b.input else if chain == "forward" then b.opening + b.forward else []
    else if family == "bridge" then
      if chain == "input" then b.bridgeInput else if chain == "forward" then b.bridgeForward
      else if chain == "output" then b.bridgeOutput else []
    else []
  }

  predicate IsGuardChain(family: string, chain: string) {
    (family == "inet" && chain in {"input", "forward"})
      || (family == "bridge" && chain in {"input", "forward", "output"})
  }

  function ForwardRest(p: Profile): seq<RuleSpec> {
    ForwardHead(p) + Exclusions(p, Excluded(p)) + ForwardTail(p)
  }

  function GuardBatch(p: Profile): Batch {
    Batch([DenyIpv6(p)], InputRest(p), ForwardRest(p),
          BridgeRules(p, BridgeKeys("input")), BridgeRules(p, BridgeKeys("forward")),
            BridgeRules(p, BridgeKeys("output")))
  }

  /** The batch as one value, in the order it is sent. */
  function GuardDocument(p: Profile): Document { Assemble(GuardBatch(p)) }

  method AppendRules(objects: Document, family: string, chain: string, specs: seq<RuleSpec>) returns (r: Document)
    ensures r == objects + RuleEntries(family, chain, specs)
  {
    r := objects;
    for i := 0 to |specs|
      invariant r == objects + RuleEntries(family, chain, specs[..i])
    {
      r := r + [RuleEntry(family, chain, specs[i])];
      assert specs[..i + 1] == specs[..i] + [specs[i]];
      EntriesConcat(family, chain, specs[..i], [specs[i]]);
    }
    assert specs[..|specs|] == specs;
  }

  method AppendSection(objects: Document, family: string, hook: string, specs: seq<RuleSpec>) returns (r: Document)
    ensures r == objects + Section(family, hook, specs)
  {
    r := objects + [ChainEntry(family, hook)];
    r := AppendRules(r, family, hook, specs);
  }

  method AppendExclusions(objects: Document, p: Profile, cidrs: seq<Cidr>) returns (r: Document)
    ensures r == objects + RuleEntries("inet", "forward", Exclusions(p, cidrs))
  {
    r := objects;
    for i := 0 to |cidrs|
      invariant r == objects + RuleEntries("inet", "forward", Exclusions(p, cidrs[..i]))
    {
      r := r + [RuleEntry("inet", "forward", ExclusionRule(p, cidrs[i]))];
      assert Exclusions(p, cidrs[..i + 1]) == Exclusions(p, cidrs[..i]) + [ExclusionRule(p, cidrs[i])];
      EntriesConcat("inet", "forward", Exclusions(p, cidrs[..i]), [ExclusionRule(p, cidrs[i])]);
    }
    assert cidrs[..|cidrs|] == cidrs;
  }

  method AppendForward(objects: Document, p: Profile) returns (r: Document)
    ensures r == objects + RuleEntries("inet", "forward", ForwardRest(p))
  {
    r := AppendRules(objects, "inet", "forward", ForwardHead(p));
    r := AppendExclusions(r, p, BlockedCidrs() + p.production);
    r := AppendRules(r, "inet", "forward", ForwardTail(p));
    EntriesConcat("inet", "forward", ForwardHead(p), Exclusions(p, Excluded(p)));
    EntriesConcat("inet", "forward", ForwardHead(p) + Exclusions(p, Excluded(p)), ForwardTail(p));
  }

  method AppendOpening(b: Batch) returns (r: Document)
    ensures r == OpeningPart(b)
  {
    r := [TableEntry("inet")];
    r := r + [TableEntry("bridge")];
    r := AppendSection(r, "inet", "input", b.opening);
    r := AppendSection(r, "inet", "forward", b.opening);
  }

  method AppendBridge(objects: Document, b: Batch) returns (r: Document)
    ensures r == objects + BridgePart(b)
  {
    r := AppendSection(objects, "bridge", "input", b.bridgeInput);
    r := AppendSection(r, "bridge", "forward", b.bridgeForward);
    r := AppendSection(r, "bridge", "output", b.bridgeOutput);
  }

  /** `firewall`: the batch built object by object. */
  method Firewall(p: Profile) returns (objects: Document)
    ensures objects == GuardDocument(p)
  {
    var b := GuardBatch(p);
    objects := AppendOpening(b);
    objects := AppendRules(objects, "inet", "input", b.input);
    objects := AppendForward(objects, p);
    assert objects == OpeningPart(b) + InetPart(b);
    objects := AppendBridge(objects, b);
  }

  lemma {:induction false} EntriesConcat(f: string, c: string, a: seq<RuleSpec>, b: seq<RuleSpec>)
    ensures RuleEntries(f, c, a + b) == RuleEntries(f, c, a) + RuleEntries(f, c, b)
    decreases |a|
  {
    if a == [] {
      assert a + b == b;
    } else {
      var first, rest := [RuleEntry(f, c, a[0])], RuleEntries(f, c, a[1..]);
      calc {
        RuleEntries(f, c, a + b);
        { assert (a + b)[0] == a[0] && (a + b)[1..] == a[1..] + b; }
        first + RuleEntries(f, c, a[1..] + b);
        { EntriesConcat(f, c, a[1..], b); }
        first + (rest + RuleEntries(f, c, b));
        { Associative(first, rest, RuleEntries(f, c, b)); }
        (first + rest) + RuleEntries(f, c, b);
      }
    }
  }

  lemma {:induction false} ExprsConcat(a: seq<RuleSpec>, b: seq<RuleSpec>)
    ensures Exprs(a + b) == Exprs(a) + Exprs(b)
    decreases |a|
  {
    if a == [] {
      assert a + b == b;
    } else {
      calc {
        Exprs(a + b);
        { assert (a + b)[0] == a[0] && (a + b)[1..] == a[1..] + b; }
        [ExprOf(a[0])] + Exprs(a[1..] + b);
        { ExprsConcat(a[1..], b); }
        [ExprOf(a[0])] + (Exprs(a[1..]) + Exprs(b));
        { Associative([ExprOf(a[0])], Exprs(a[1..]), Exprs(b)); }
        ([ExprOf(a[0])] + Exprs(a[1..])) + Exprs(b);
      }
    }
  }

  // ---------- what nft reads from the batch ----------

  lemma {:induction false} RulesOfConcat(a: Document, b: Document, family: string, chain: string)
    ensures RulesOf(a + b, family, chain) == RulesOf(a, family, chain) + RulesOf(b, family, chain)
    ensures DeclarationsOf(a + b, family, chain) == DeclarationsOf(a, family, chain) + DeclarationsOf(b, family, chain)
    decreases |b|
  {
    if b == [] {
      assert a + b == a;
    } else {
      var n := |b| - 1;
      assert (a + b)[..|a| + n] == a + b[..n];
      RulesOfConcat(a, b[..n], family, chain);
    }
  }

  function Exprs(specs: seq<RuleSpec>): seq<Expr> {
    if specs == [] then [] else [ExprOf(specs[0])] + Exprs(specs[1..])
  }

  lemma {:induction false} RulesOfEntries(f: string, c: string, specs: seq<RuleSpec>, family: string, chain: string)
    ensures RulesOf(RuleEntries(f, c, specs), family, chain) == if f == family && c == chain then Exprs(specs) else []
    ensures DeclarationsOf(RuleEntries(f, c, specs), family, chain) == []
    decreases |specs|
  {
    if specs != [] {
      RulesOfSingle(RuleEntry(f, c, specs[0]), family, chain);
      RulesOfEntries(f, c, specs[1..], family, chain);
      RulesOfConcat([RuleEntry(f, c, specs[0])], RuleEntries(f, c, specs[1..]), family, chain);
    }
  }

  lemma RulesOfSingle(e: Entry, family: string, chain: string)
    ensures RulesOf([e], family, chain) == if IsAt(e, Key(family, RuleKind, chain)) then [e.item.expr] else []
    ensures DeclarationsOf([e], family, chain) == if IsAt(e, Key(family, ChainKind, chain)) then [e.item.fields] else []
  {
    assert [e][..0] == [];
  }

  lemma SectionRules(f: string, hook: string, specs: seq<RuleSpec>, family: string, chain: string)
    ensures RulesOf(Section(f, hook, specs), family, chain) == if f == family && hook == chain then Exprs(specs) else []
    ensures DeclarationsOf(Section(f, hook, specs), family, chain)
         == if f == family && hook == chain then [ChainFields(hook)] else []
  {
    RulesOfSingle(ChainEntry(f, hook), family, chain);
    RulesOfEntries(f, hook, specs, family, chain);
    RulesOfConcat([ChainEntry(f, hook)], RuleEntries(f, hook, specs), family, chain);
  }

  lemma TablesRules(family: string, chain: string)
    ensures RulesOf(Tables(), family, chain) == [] && DeclarationsOf(Tables(), family, chain) == []
  {
    assert Tables() == [TableEntry("inet")] + [TableEntry("bridge")];
    RulesOfSingle(TableEntry("inet"), family, chain);
    RulesOfSingle(TableEntry("bridge"), family, chain);
    RulesOfConcat([TableEntry("inet")], [TableEntry("bridge")], family, chain);
  }

  lemma ThreePieces(a: Document, b: Document, c: Document, family: string, chain: string)
    ensures RulesOf(a + b + c, family, chain)
            == RulesOf(a, family, chain) + RulesOf(b, family, chain) + RulesOf(c, family, chain)
    ensures DeclarationsOf(a + b + c, family, chain)
         == DeclarationsOf(a, family, chain) + DeclarationsOf(b, family, chain) + DeclarationsOf(c, family, chain)
  {
    RulesOfConcat(a + b, c, family, chain);
    RulesOfConcat(a, b, family, chain);
  }

  /** What one part of the batch adds to one chain. */
  ghost predicate Adds(doc: Document, family: string, chain: string, specs: seq<RuleSpec>, declared: bool) {
    && RulesOf(doc, family, chain) == Exprs(specs)
    && DeclarationsOf(doc, family, chain) == if declared then [ChainFields(chain)] else []
  }

  lemma AddsThree(a: Document, b: Document, c: Document, family: string, chain: string,
                  sa: seq<RuleSpec>, sb: seq<RuleSpec>, sc: seq<RuleSpec>, da: bool, db: bool, dc: bool)
    requires Adds(a, family, chain, sa, da) && Adds(b, family, chain, sb, db) && Adds(c, family, chain, sc, dc)
    requires !(da && db) && !(da && dc) && !(db && dc)
    ensures Adds(a + b + c, family, chain, sa + sb + sc, da || db || dc)
  {
    ThreePieces(a, b, c, family, chain);
    ExprsConcat(sa, sb);
    ExprsConcat(sa + sb, sc);
  }

  predicate At(f: string, h: string, family: string, chain: string) { f == family && h == chain }

  function When(b: bool, specs: seq<RuleSpec>): seq<RuleSpec> { if b then specs else [] }

  lemma SectionAdds(f: string, hook: string, specs: seq<RuleSpec>, family: string, chain: string)
    ensures Adds(Section(f, hook, specs), family, chain, When(At(f, hook, family, chain), specs),
                 At(f, hook, family, chain))
  {
    SectionRules(f, hook, specs, family, chain);
  }

  lemma EntriesAdd(f: string, hook: string, specs: seq<RuleSpec>, family: string, chain: string)
    ensures Adds(RuleEntries(f, hook, specs), family, chain, When(At(f, hook, family, chain), specs), false)
  {
    RulesOfEntries(f, hook, specs, family, chain);
  }

  lemma TablesAdd(family: string, chain: string)
    ensures Adds(Tables(), family, chain, [], false)
  {
    TablesRules(family, chain);
  }

  lemma WhenEither(a: bool, b: bool, specs: seq<RuleSpec>)
    requires !(a && b)
    ensures [] + When(a, specs) + When(b, specs) == When(a || b, specs)
  {
  }

  lemma OpeningAdds(b: Batch, family: string, chain: string)
    ensures var i, f := At("inet", "input", family, chain), At("inet", "forward", family, chain);
            Adds(OpeningPart(b), family, chain, When(i || f, b.opening), i || f)
  {
    var i, f := At("inet", "input", family, chain), At("inet", "forward", family, chain);
    TablesAdd(family, chain);
    SectionAdds("inet", "input", b.opening, family, chain);
    SectionAdds("inet", "forward", b.opening, family, chain);
    AddsThree(Tables(), Section("inet", "input", b.opening), Section("inet", "forward", b.opening), family, chain,
              [], When(i, b.opening), When(f, b.opening), false, i, f);
    WhenEither(i, f, b.opening);
  }

  lemma InetAdds(b: Batch, family: string, chain: string)
    ensures var i, f := At("inet", "input", family, chain), At("inet", "forward", family, chain);
            Adds(InetPart(b), family, chain, When(i, b.input) + When(f, b.forward), false)
  {
    var i, f := At("inet", "input", family, chain), At("inet", "forward", family, chain);
    EntriesAdd("inet", "input", b.input, family, chain);
    EntriesAdd("inet", "forward", b.forward, family, chain);
    RulesOfConcat(RuleEntries("inet", "input", b.input), RuleEntries("inet", "forward", b.forward), family, chain);
    ExprsConcat(When(i, b.input), When(f, b.forward));
  }

  lemma BridgeAdds(b: Batch, family: string, chain: string)
    ensures var i, f := At("bridge", "input", family, chain), At("bridge", "forward", family, chain);
            var o := At("bridge", "output", family, chain);
            Adds(BridgePart(b), family, chain,
                 When(i, b.bridgeInput) + When(f, b.bridgeForward) + When(o, b.bridgeOutput), i || f || o)
  {
    var i, f := At("bridge", "input", family, chain), At("bridge", "forward", family, chain);
    var o := At("bridge", "output", family, chain);
    SectionAdds("bridge", "input", b.bridgeInput, family, chain);
    SectionAdds("bridge", "forward", b.bridgeForward, family, chain);
    SectionAdds("bridge", "output", b.bridgeOutput, family, chain);
    AddsThree(Section("bridge", "input", b.bridgeInput), Section("bridge", "forward", b.bridgeForward),
              Section("bridge", "output", b.bridgeOutput),
              family, chain, When(i, b.bridgeInput), When(f, b.bridgeForward), When(o, b.bridgeOutput), i, f, o);
  }

  lemma SpecsAtIsSum(b: Batch, family: string, chain: string)
    ensures var i, f := At("inet", "input", family, chain), At("inet", "forward", family, chain);
            var bi, bf := At("bridge", "input", family, chain), At("bridge", "forward", family, chain);
            var bo := At("bridge", "output", family, chain);
            && SpecsAt(b, family, chain)
               == When(i || f, b.opening) + (When(i, b.input) + When(f, b.forward))
                  + (When(bi, b.bridgeInput) + When(bf, b.bridgeForward) + When(bo, b.bridgeOutput))
            && (IsGuardChain(family, chain) <==> i || f || bi || bf || bo)
  {
  }

  /** The batch declares exactly the five guard chains, each with exactly its rules in order. */
  lemma GuardChains(b: Batch, family: string, chain: string)
    ensures RulesOf(Assemble(b), family, chain) == Exprs(SpecsAt(b, family, chain))
    ensures DeclarationsOf(Assemble(b), family, chain) == if IsGuardChain(family, chain) then [ChainFields(chain)]
            else []
  {
    var i, f := At("inet", "input", family, chain), At("inet", "forward", family, chain);
    var bi, bf := At("bridge", "input", family, chain), At("bridge", "forward", family, chain);
    var bo := At("bridge", "output", family, chain);
    SpecsAtIsSum(b, family, chain);
    OpeningAdds(b, family, chain);
    InetAdds(b, family, chain);
    BridgeAdds(b, family, chain);
    AddsThree(OpeningPart(b), InetPart(b), BridgePart(b), family, chain,
              When(i || f, b.opening), When(i, b.input) + When(f, b.forward),
              When(bi, b.bridgeInput) + When(bf, b.bridgeForward) + When(bo, b.bridgeOutput), i || f, false, bi || bf
                || bo);
  }

  // ---------- first match ----------

  ghost predicate Matches(interp: Interp, spec: RuleSpec, pkt: Packet) {
    forall i :: 0 <= i < |spec.conds| ==> Holds(interp, spec.conds[i], pkt)
  }

  ghost predicate Decisive(spec: RuleSpec) { spec.verdict == Accept || spec.verdict == Drop }

  lemma RunSpec(interp: Interp, chains: Chains, spec: RuleSpec, pkt: Packet)
    requires Decisive(spec)
    ensures RunStmts(interp, chains, ExprOf(spec), pkt, JUMP_DEPTH)
         == if !Matches(interp, spec, pkt) then Fallthrough else if spec.verdict == Accept then Passed else Blocked
  {
    var e := ExprOf(spec);
    ConjunctionAt(spec.conds);
    assert forall i :: 0 <= i < |spec.conds| ==> e[i] == Match(spec.conds[i]);
    RunPureRule(interp, chains, e, pkt, JUMP_DEPTH);
    assert AllHold(interp, e, pkt) <==> Matches(interp, spec, pkt) by {
      assert forall i :: 0 <= i < |spec.conds| ==> e[i].cond == spec.conds[i];
    }
  }

  lemma {:induction false} ConjunctionAt(conds: seq<Cond>)
    ensures |Conjunction(conds)| == |conds|
    ensures forall i :: 0 <= i < |conds| ==> Conjunction(conds)[i] == Match(conds[i])
  {
    if conds != [] {
      ConjunctionAt(conds[1..]);
    }
  }

  /** The first matching rule decides. */
  lemma {:induction false} FirstMatch(interp: Interp, chains: Chains, specs: seq<RuleSpec>, i: nat, pkt: Packet)
    requires forall j :: 0 <= j < |specs| ==> Decisive(specs[j])
    requires i <= |specs| && (forall j :: 0 <= j < i ==> !Matches(interp, specs[j], pkt))
    requires i < |specs| ==> Matches(interp, specs[i], pkt)
    ensures RunRules(interp, chains, Exprs(specs), pkt, JUMP_DEPTH)
         == if i == |specs| then Fallthrough else if specs[i].verdict == Accept then Passed else Blocked
    decreases |specs|
  {
    if specs != [] {
      RunSpec(interp, chains, specs[0], pkt);
      if i > 0 {
        assert Exprs(specs)[1..] == Exprs(specs[1..]);
        FirstMatch(interp, chains, specs[1..], i - 1, pkt);
      }
    }
  }

  // ---------- isolation ----------

  ghost predicate FromBridge(p: Profile, pkt: Packet) { Carries(pkt, Meta("iifname"), Text(p.bridge)) }
  ghost predicate ToBridge(p: Profile, pkt: Packet) { Carries(pkt, Meta("oifname"), Text(p.bridge)) }
  ghost predicate IsIpv4(pkt: Packet) { Carries(pkt, NFPROTO, Text("ipv4")) }

  ghost predicate AddressIn(pkt: Packet, load: Load, cidr: Cidr) {
    load in pkt && pkt[load].Addr? && InPrefix(pkt[load].address, cidr.network, cidr.length)
  }

  /** A tracked packet of an established connection, travelling in the reply direction. */
  ghost predicate IsReply(pkt: Packet) {
    Carries(pkt, Ct("state"), Text("established")) && Carries(pkt, Ct("direction"), Text("reply"))
  }

  /** What the `inet` hooks see: IPv4 with both addresses, or IPv6. */
  ghost predicate InetPacket(pkt: Packet) {
    && WellFormed(pkt)
    && NFPROTO in pkt && pkt[NFPROTO] in {Text("ipv4"), Text("ipv6")}
    && (IsIpv4(pkt) ==> SADDR in pkt && DADDR in pkt && pkt[SADDR].Addr? && pkt[DADDR].Addr?)
  }

  ghost predicate OutsideExclusions(p: Profile, pkt: Packet) {
    forall i :: 0 <= i < |Excluded(p)| ==> !AddressIn(pkt, DADDR, Excluded(p)[i])
  }

  /** Forwarded traffic the guard is meant to allow. */
  ghost predicate ForwardAllowed(p: Profile, pkt: Packet) {
    if FromBridge(p, pkt) then
      && IsIpv4(pkt) && AddressIn(pkt, SADDR, p.underlay)
      && ((ToBridge(p, pkt) && AddressIn(pkt, DADDR, p.underlay)) || OutsideExclusions(p, pkt))
    else if ToBridge(p, pkt) then IsIpv4(pkt) && IsReply(pkt)
    else true
  }

  ghost predicate IsDhcp(p: Profile, pkt: Packet) {
    && Carries(pkt, Payload("udp", "sport"), Num(68)) && Carries(pkt, Payload("udp", "dport"), Num(67))
    && (Carries(pkt, SADDR, Addr(0)) || AddressIn(pkt, SADDR, p.underlay))
    && (Carries(pkt, DADDR, Addr(p.gateway)) || Carries(pkt, DADDR, Addr(Ip(255, 255, 255, 255))))
  }

  ghost predicate IsDns(p: Profile, pkt: Packet) {
    && AddressIn(pkt, SADDR, p.underlay) && Carries(pkt, DADDR, Addr(p.gateway))
    && (Carries(pkt, Payload("udp", "dport"), Num(53)) || Carries(pkt, Payload("tcp", "dport"), Num(53)))
  }

  /** Guest-to-host traffic the guard is meant to allow. */
  ghost predicate InputAllowed(p: Profile, pkt: Packet) {
    FromBridge(p, pkt) ==>
      IsDhcp(p, pkt) || (AddressIn(pkt, SADDR, p.underlay) && IsReply(pkt)) || IsDns(p, pkt)
  }

  ghost predicate BridgeAllowed(p: Profile, hook: string, pkt: Packet) {
    !(&& Carries(pkt, Payload("ether", "type"), Text("ip6"))
      && ((hook in {"input", "forward"} && Carries(pkt, Meta("ibrname"), Text(p.bridge)))
          || (hook in {"forward", "output"} && Carries(pkt, Meta("obrname"), Text(p.bridge)))))
  }

  /** The first rule of `specs` a packet meets is the `i`-th, or there is none. */
  ghost predicate Meets(interp: Interp, specs: seq<RuleSpec>, i: nat, pkt: Packet) {
    && i <= |specs| && (forall j :: 0 <= j < i ==> !Matches(interp, specs[j], pkt))
    && (i < |specs| ==> Matches(interp, specs[i], pkt))
  }

  ghost predicate AllDecisive(specs: seq<RuleSpec>) {
    forall j :: 0 <= j < |specs| ==> Decisive(specs[j])
  }

  lemma FindFirst(interp: Interp, specs: seq<RuleSpec>, pkt: Packet) returns (i: nat)
    ensures Meets(interp, specs, i, pkt)
  {
    i := 0;
    while i < |specs| && !Matches(interp, specs[i], pkt)
      invariant i <= |specs| && forall j :: 0 <= j < i ==> !Matches(interp, specs[j], pkt)
    {
      i := i + 1;
    }
  }

  /** A hook with a single accepting-by-default chain is decided by that chain alone. */
  lemma SingleChainHook(interp: Interp, doc: Document, family: string, hook: string, pkt: Packet)
    requires DeclarationsOf(doc, family, hook) == [ChainFields(hook)]
    requires forall name :: AttachedTo(doc, family, name, hook) ==> name == hook
    ensures Passes(interp, doc, family, hook, pkt)
       <==> RunRules(interp, ChainTable(doc, family), RulesOf(doc, family, hook), pkt, JUMP_DEPTH) != Blocked
  {
    assert AttachedTo(doc, family, hook, hook);
  }

  lemma OneChainPerHook(b: Batch, family: string, name: string, hook: string)
    requires AttachedTo(Assemble(b), family, name, hook)
    ensures name == hook
  {
    GuardChains(b, family, name);
  }

  /** One chain of the batch decides for its hook. */
  lemma HookIsChain(interp: Interp, b: Batch, family: string, hook: string, i: nat, pkt: Packet)
    requires IsGuardChain(family, hook)
    requires AllDecisive(SpecsAt(b, family, hook)) && Meets(interp, SpecsAt(b, family, hook), i, pkt)
    ensures var specs := SpecsAt(b, family, hook);
            Passes(interp, Assemble(b), family, hook, pkt) <==> (i == |specs| || specs[i].verdict == Accept)
  {
    var doc := Assemble(b);
    GuardChains(b, family, hook);
    FirstMatch(interp, ChainTable(doc, family), SpecsAt(b, family, hook), i, pkt);
    forall name | AttachedTo(doc, family, name, hook)
      ensures name == hook
    {
      OneChainPerHook(b, family, name, hook);
    }
    SingleChainHook(interp, doc, family, hook, pkt);
  }

  /** Single conditions, read back as facts about the packet. */
  lemma CondFacts(interp: Interp, p: Profile, pkt: Packet)
    ensures Holds(interp, Guest(p), pkt) <==> FromBridge(p, pkt)
    ensures Holds(interp, ToGuest(p), pkt) <==> ToBridge(p, pkt)
    ensures Holds(interp, Ipv6(), pkt) <==> Carries(pkt, NFPROTO, Text("ipv6"))
    ensures Holds(interp, Source(p), pkt) <==> AddressIn(pkt, SADDR, p.underlay)
    ensures Holds(interp, Spoofed(p), pkt) <==> SADDR in pkt && !AddressIn(pkt, SADDR, p.underlay)
    ensures Holds(interp, Established(), pkt) && Holds(interp, Reply(), pkt) <==> IsReply(pkt)
    ensures Holds(interp, Gateway(p), pkt) <==> Carries(pkt, DADDR, Addr(p.gateway))
    ensures forall cidr :: Holds(interp, InCidr(DADDR, cidr), pkt) <==> AddressIn(pkt, DADDR, cidr)
  {
  }

  /** When a rule of up to four conditions matches. */
  lemma MatchesUpToFour(interp: Interp, spec: RuleSpec, pkt: Packet)
    requires 1 <= |spec.conds| <= 4
    ensures Matches(interp, spec, pkt) <==>
      && Holds(interp, spec.conds[0], pkt)
      && (|spec.conds| > 1 ==> Holds(interp, spec.conds[1], pkt))
      && (|spec.conds| > 2 ==> Holds(interp, spec.conds[2], pkt))
      && (|spec.conds| > 3 ==> Holds(interp, spec.conds[3], pkt))
  {
  }

  lemma OpeningFacts(interp: Interp, p: Profile, pkt: Packet)
    ensures Matches(interp, DenyIpv6(p), pkt) <==> FromBridge(p, pkt) && Carries(pkt, NFPROTO, Text("ipv6"))
  {
    CondFacts(interp, p, pkt);
    MatchesUpToFour(interp, DenyIpv6(p), pkt);
  }

  lemma HeadFacts(interp: Interp, p: Profile, pkt: Packet)
    ensures Matches(interp, ForwardHead(p)[0], pkt) <==> ToBridge(p, pkt) && Carries(pkt, NFPROTO, Text("ipv6"))
    ensures Matches(interp, ForwardHead(p)[1], pkt) <==>
              FromBridge(p, pkt) && SADDR in pkt && !AddressIn(pkt, SADDR, p.underlay)
    ensures Matches(interp, ForwardHead(p)[2], pkt) <==>
              FromBridge(p, pkt) && ToBridge(p, pkt) && AddressIn(pkt, SADDR, p.underlay)
                && AddressIn(pkt, DADDR, p.underlay)
  {
    CondFacts(interp, p, pkt);
    MatchesUpToFour(interp, ForwardHead(p)[0], pkt);
    MatchesUpToFour(interp, ForwardHead(p)[1], pkt);
    MatchesUpToFour(interp, ForwardHead(p)[2], pkt);
  }

  lemma TailFacts(interp: Interp, p: Profile, pkt: Packet)
    ensures Matches(interp, ForwardTail(p)[0], pkt) <==> FromBridge(p, pkt) && AddressIn(pkt, SADDR, p.underlay)
    ensures Matches(interp, ForwardTail(p)[1], pkt) <==> FromBridge(p, pkt)
    ensures Matches(interp, ForwardTail(p)[2], pkt) <==> ToBridge(p, pkt) && IsReply(pkt)
    ensures Matches(interp, ForwardTail(p)[3], pkt) <==> ToBridge(p, pkt)
  {
    CondFacts(interp, p, pkt);
    MatchesUpToFour(interp, ForwardTail(p)[0], pkt);
    MatchesUpToFour(interp, ForwardTail(p)[1], pkt);
    MatchesUpToFour(interp, ForwardTail(p)[2], pkt);
    MatchesUpToFour(interp, ForwardTail(p)[3], pkt);
  }

  lemma ExclusionFacts(interp: Interp, p: Profile, cidr: Cidr, pkt: Packet)
    ensures Matches(interp, ExclusionRule(p, cidr), pkt) <==> FromBridge(p, pkt) && AddressIn(pkt, DADDR, cidr)
  {
    CondFacts(interp, p, pkt);
    MatchesUpToFour(interp, ExclusionRule(p, cidr), pkt);
  }

  /** The forward chain as a list of cases: when each rule matches and what it then does. */
  ghost predicate ForwardCases(interp: Interp, p: Profile, specs: seq<RuleSpec>, cidrs: seq<Cidr>, pkt: Packet) {
    var n := |cidrs|;
    var ipv6 := Carries(pkt, NFPROTO, Text("ipv6"));
    var own := AddressIn(pkt, SADDR, p.underlay);
    && |specs| == n + 8
    && (Matches(interp, specs[0], pkt) <==> FromBridge(p, pkt) && ipv6) && specs[0].verdict == Drop
    && (Matches(interp, specs[1], pkt) <==> ToBridge(p, pkt) && ipv6) && specs[1].verdict == Drop
    && (Matches(interp, specs[2], pkt) <==> FromBridge(p, pkt) && SADDR in pkt && !own) && specs[2].verdict == Drop
    && (Matches(interp, specs[3], pkt) <==>
      FromBridge(p, pkt) && ToBridge(p, pkt) && own && AddressIn(pkt, DADDR, p.underlay))
    && specs[3].verdict == Accept
    && (forall k :: 4 <= k < n + 4 ==>
          (Matches(interp, specs[k], pkt) <==> FromBridge(p, pkt) && AddressIn(pkt, DADDR, cidrs[k - 4]))
            && specs[k].verdict == Drop)
    && (Matches(interp, specs[n + 4], pkt) <==> FromBridge(p, pkt) && own) && specs[n + 4].verdict == Accept
    && (Matches(interp, specs[n + 5], pkt) <==> FromBridge(p, pkt)) && specs[n + 5].verdict == Drop
    && (Matches(interp, specs[n + 6], pkt) <==> ToBridge(p, pkt) && IsReply(pkt)) && specs[n + 6].verdict == Accept
    && (Matches(interp, specs[n + 7], pkt) <==> ToBridge(p, pkt)) && specs[n + 7].verdict == Drop
  }

  lemma ForwardHasCases(interp: Interp, p: Profile, cidrs: seq<Cidr>, pkt: Packet)
    ensures var specs := [DenyIpv6(p)] + (ForwardHead(p) + Exclusions(p, cidrs) + ForwardTail(p));
            ForwardCases(interp, p, specs, cidrs, pkt) && AllDecisive(specs)
  {
    OpeningFacts(interp, p, pkt);
    HeadFacts(interp, p, pkt);
    TailFacts(interp, p, pkt);
    forall k | 0 <= k < |cidrs| { ExclusionFacts(interp, p, cidrs[k], pkt); }
    JoinCases(interp, p, DenyIpv6(p), ForwardHead(p), Exclusions(p, cidrs), ForwardTail(p), cidrs, pkt);
  }

  lemma ForwardSpecs(p: Profile)
    ensures SpecsAt(GuardBatch(p), "inet", "forward")
         == [DenyIpv6(p)] + (ForwardHead(p) + Exclusions(p, Excluded(p)) + ForwardTail(p))
  {
  }

  lemma JoinCases(interp: Interp, p: Profile, opening: RuleSpec, head: seq<RuleSpec>, exclusions: seq<RuleSpec>,
                  tail: seq<RuleSpec>,
                  cidrs: seq<Cidr>, pkt: Packet)
    requires |head| == 3 && |tail| == 4 && |exclusions| == |cidrs|
    requires (Matches(interp, opening, pkt) <==> FromBridge(p, pkt) && Carries(pkt, NFPROTO, Text("ipv6")))
             && opening.verdict == Drop
    requires (Matches(interp, head[0], pkt) <==> ToBridge(p, pkt) && Carries(pkt, NFPROTO, Text("ipv6")))
             && head[0].verdict == Drop
    requires (Matches(interp, head[1], pkt) <==>
               FromBridge(p, pkt) && SADDR in pkt && !AddressIn(pkt, SADDR, p.underlay)) && head[1].verdict == Drop
    requires (Matches(interp, head[2], pkt) <==>
               FromBridge(p, pkt) && ToBridge(p, pkt) && AddressIn(pkt, SADDR, p.underlay)
                 && AddressIn(pkt, DADDR, p.underlay))
    requires head[2].verdict == Accept
    requires forall k :: 0 <= k < |cidrs| ==>
               (Matches(interp, exclusions[k], pkt) <==> FromBridge(p, pkt) && AddressIn(pkt, DADDR, cidrs[k]))
                 && exclusions[k].verdict == Drop
    requires (Matches(interp, tail[0], pkt) <==> FromBridge(p, pkt) && AddressIn(pkt, SADDR, p.underlay))
             && tail[0].verdict == Accept
    requires (Matches(interp, tail[1], pkt) <==> FromBridge(p, pkt)) && tail[1].verdict == Drop
    requires (Matches(interp, tail[2], pkt) <==> ToBridge(p, pkt) && IsReply(pkt)) && tail[2].verdict == Accept
    requires (Matches(interp, tail[3], pkt) <==> ToBridge(p, pkt)) && tail[3].verdict == Drop
    ensures var specs := [opening] + (head + exclusions + tail);
            ForwardCases(interp, p, specs, cidrs, pkt) && AllDecisive(specs)
  {
    var specs := [opening] + (head + exclusions + tail);
    forall k | 4 <= k < |cidrs| + 4
      ensures specs[k] == exclusions[k - 4]
    {
    }
  }

  lemma ForwardDecision(interp: Interp, p: Profile, specs: seq<RuleSpec>, i: nat, pkt: Packet)
    requires InetPacket(pkt) && ForwardCases(interp, p, specs, Excluded(p), pkt) && Meets(interp, specs, i, pkt)
    ensures i == |specs| || specs[i].verdict == Accept <==> ForwardAllowed(p, pkt)
  {
    var n := |specs| - 8;
    if FromBridge(p, pkt) {
      if 4 <= i < n + 4 {
        assert !OutsideExclusions(p, pkt);
      } else if i >= n + 4 {
        forall k | 0 <= k < n
          ensures !AddressIn(pkt, DADDR, Excluded(p)[k])
        {
          assert !Matches(interp, specs[k + 4], pkt);
        }
      }
    }
  }

  /** Forwarding is decided exactly as intended, for every packet. */
  lemma ForwardIsolation(interp: Interp, p: Profile, pkt: Packet)
    requires InetPacket(pkt)
    ensures Passes(interp, GuardDocument(p), "inet", "forward", pkt) <==> ForwardAllowed(p, pkt)
  {
    var specs := SpecsAt(GuardBatch(p), "inet", "forward");
    ForwardSpecs(p);
    ForwardHasCases(interp, p, Excluded(p), pkt);
    var i := FindFirst(interp, specs, pkt);
    ForwardDecision(interp, p, specs, i, pkt);
    HookIsChain(interp, GuardBatch(p), "inet", "forward", i, pkt);
  }

  lemma DhcpFacts(interp: Interp, p: Profile, pkt: Packet)
    requires WellFormed(pkt)
    ensures Matches(interp, RuleSpec(DhcpConds(p), Accept, "hetero-dev: DHCP only"), pkt) <==>
              FromBridge(p, pkt) && IsDhcp(p, pkt)
  {
    var spec := RuleSpec(DhcpConds(p), Accept, "hetero-dev: DHCP only");
    var sources := AnyOf([Lit(Addr(0)), Prefix(p.underlay.network, p.underlay.length)]);
    var targets := AnyOf([Lit(Addr(p.gateway)), Lit(Addr(Ip(255, 255, 255, 255)))]);
    forall v
      ensures Covers(sources, v) <==> v == Addr(0) || Covers(Prefix(p.underlay.network, p.underlay.length), v)
      ensures Covers(targets, v) <==> v == Addr(p.gateway) || v == Addr(Ip(255, 255, 255, 255))
    {
      assert Lit(Addr(0)) in sources.elements && Prefix(p.underlay.network, p.underlay.length) in sources.elements;
      assert Lit(Addr(p.gateway)) in targets.elements && Lit(Addr(Ip(255, 255, 255, 255))) in targets.elements;
    }
    var c := spec.conds;
    assert Matches(interp, spec, pkt) <==>
      && Holds(interp, c[0], pkt) && Holds(interp, c[1], pkt) && Holds(interp, c[2], pkt)
      && Holds(interp, c[3], pkt) && Holds(interp, c[4], pkt) && Holds(interp, c[5], pkt);
  }

  lemma DnsFacts(interp: Interp, p: Profile, protocol: string, pkt: Packet)
    requires WellFormed(pkt) && protocol in {"udp", "tcp"}
    ensures Matches(interp, RuleSpec(DnsConds(p, protocol), Accept, "hetero-dev: DNS to own gateway only"), pkt) <==>
      && FromBridge(p, pkt) && AddressIn(pkt, SADDR, p.underlay) && Carries(pkt, DADDR, Addr(p.gateway))
      && Carries(pkt, Payload(protocol, "dport"), Num(53))
  {
    var spec := RuleSpec(DnsConds(p, protocol), Accept, "hetero-dev: DNS to own gateway only");
    CondFacts(interp, p, pkt);
    var c := spec.conds;
    assert Matches(interp, spec, pkt) <==>
      && Holds(interp, c[0], pkt) && Holds(interp, c[1], pkt) && Holds(interp, c[2], pkt)
      && Holds(interp, c[3], pkt) && Holds(interp, c[4], pkt);
  }

  lemma InputFacts(interp: Interp, p: Profile, pkt: Packet)
    requires WellFormed(pkt)
    ensures InputCases(interp, p, [DenyIpv6(p)] + InputRest(p), pkt)
  {
    var specs := InputRest(p);
    OpeningFacts(interp, p, pkt);
    DhcpFacts(interp, p, pkt);
    DnsFacts(interp, p, "udp", pkt);
    DnsFacts(interp, p, "tcp", pkt);
    CondFacts(interp, p, pkt);
    MatchesUpToFour(interp, specs[1], pkt);
    MatchesUpToFour(interp, specs[2], pkt);
    MatchesUpToFour(interp, specs[5], pkt);
    assert forall k :: 1 <= k < 7 ==> ([DenyIpv6(p)] + specs)[k] == specs[k - 1];
  }

  /** The input chain as a list of cases. */
  ghost predicate InputCases(interp: Interp, p: Profile, specs: seq<RuleSpec>, pkt: Packet) {
    var own := AddressIn(pkt, SADDR, p.underlay);
    var dns := own && Carries(pkt, DADDR, Addr(p.gateway));
    && |specs| == 7
    && (Matches(interp, specs[0], pkt) <==> FromBridge(p, pkt) && Carries(pkt, NFPROTO, Text("ipv6")))
      && specs[0].verdict == Drop
    && (Matches(interp, specs[1], pkt) <==> FromBridge(p, pkt) && IsDhcp(p, pkt)) && specs[1].verdict == Accept
    && (Matches(interp, specs[2], pkt) <==> FromBridge(p, pkt) && SADDR in pkt && !own) && specs[2].verdict == Drop
    && (Matches(interp, specs[3], pkt) <==> FromBridge(p, pkt) && own && IsReply(pkt)) && specs[3].verdict == Accept
    && (Matches(interp, specs[4], pkt) <==> FromBridge(p, pkt) && dns && Carries(pkt, Payload("udp", "dport"), Num(53)))
    && specs[4].verdict == Accept
    && (Matches(interp, specs[5], pkt) <==> FromBridge(p, pkt) && dns && Carries(pkt, Payload("tcp", "dport"), Num(53)))
    && specs[5].verdict == Accept
    && (Matches(interp, specs[6], pkt) <==> FromBridge(p, pkt)) && specs[6].verdict == Drop
  }

  lemma InputDecision(interp: Interp, p: Profile, specs: seq<RuleSpec>, i: nat, pkt: Packet)
    requires InetPacket(pkt) && InputCases(interp, p, specs, pkt) && Meets(interp, specs, i, pkt)
    ensures AllDecisive(specs)
    ensures i == |specs| || specs[i].verdict == Accept <==> InputAllowed(p, pkt)
  {
  }

  /** Guests reach the host only for DHCP, for DNS at their gateway, or to answer. */
  lemma InputIsolation(interp: Interp, p: Profile, pkt: Packet)
    requires InetPacket(pkt)
    ensures Passes(interp, GuardDocument(p), "inet", "input", pkt) <==> InputAllowed(p, pkt)
  {
    var specs := [DenyIpv6(p)] + InputRest(p);
    InputFacts(interp, p, pkt);
    var i := FindFirst(interp, specs, pkt);
    InputDecision(interp, p, specs, i, pkt);
    HookIsChain(interp, GuardBatch(p), "inet", "input", i, pkt);
  }

  lemma BridgeFacts(interp: Interp, p: Profile, key: string, pkt: Packet)
    ensures Matches(interp, BridgeRule(p, key), pkt) <==>
              Carries(pkt, Meta(key), Text(p.bridge)) && Carries(pkt, Payload("ether", "type"), Text("ip6"))
  {
    MatchesUpToFour(interp, BridgeRule(p, key), pkt);
  }

  lemma BridgeByKeys(interp: Interp, p: Profile, hook: string, pkt: Packet)
    requires hook in {"input", "forward", "output"}
    ensures var keys := BridgeKeys(hook);
            Passes(interp, GuardDocument(p), "bridge", hook, pkt) <==>
              forall j :: 0 <= j < |keys| ==>
                !(Carries(pkt, Meta(keys[j]), Text(p.bridge)) && Carries(pkt, Payload("ether", "type"), Text("ip6")))
  {
    var keys := BridgeKeys(hook);
    var specs := BridgeRules(p, keys);
    assert specs == SpecsAt(GuardBatch(p), "bridge", hook);
    forall j | 0 <= j < |keys| { BridgeFacts(interp, p, keys[j], pkt); }
    var i := FindFirst(interp, specs, pkt);
    HookIsChain(interp, GuardBatch(p), "bridge", hook, i, pkt);
    if i < |keys| {
      assert Matches(interp, BridgeRule(p, keys[i]), pkt);
    } else {
      forall j | 0 <= j < |keys|
        ensures !Matches(interp, BridgeRule(p, keys[j]), pkt)
      {
        assert specs[j] == BridgeRule(p, keys[j]);
      }
    }
  }

  /** No IPv6 frame crosses the bridge; every other frame does. */
  lemma BridgeIsolation(interp: Interp, p: Profile, hook: string, pkt: Packet)
    requires hook in {"input", "forward", "output"}
    ensures Passes(interp, GuardDocument(p), "bridge", hook, pkt) <==> BridgeAllowed(p, hook, pkt)
  {
    BridgeByKeys(interp, p, hook, pkt);
    var keys := BridgeKeys(hook);
    assert keys[0] == if |hook| == 6 then "obrname" else "ibrname";
    assert |keys| == 2 <==> |hook| == 7;
    assert |keys| == 2 ==> keys[1] == "obrname";
  }

  /**
   The acceptance test of `ensure_guard` and `recover_guard` is enough: whatever document the kernel
   reads back, if its canonical guard equals the requested one, the live guard isolates.
   */
  lemma AcceptedGuardIsolates(interp: Interp, p: Profile, live: Document, gl: Groups, gr: Groups, pkt: Packet)
    requires AllAdmissible(live) && Holding(gl, live) && AllAdmissible(GuardDocument(p))
             && Holding(gr, GuardDocument(p))
    requires gl == gr
    ensures InetPacket(pkt) ==> (Passes(interp, live, "inet", "forward", pkt) <==> ForwardAllowed(p, pkt))
    ensures InetPacket(pkt) ==> (Passes(interp, live, "inet", "input", pkt) <==> InputAllowed(p, pkt))
    ensures WellFormed(pkt) ==> forall hook :: hook in {"input", "forward", "output"} ==>
              (Passes(interp, live, "bridge", hook, pkt) <==> BridgeAllowed(p, hook, pkt))
  {
    var doc := GuardDocument(p);
    EqualGroups(live, doc, gl, gr);
    if InetPacket(pkt) {
      SameCanonicalSameVerdict(interp, live, doc, "inet", "forward", pkt);
      SameCanonicalSameVerdict(interp, live, doc, "inet", "input", pkt);
      ForwardIsolation(interp, p, pkt);
      InputIsolation(interp, p, pkt);
    }
    if WellFormed(pkt) {
      forall hook | hook in {"input", "forward", "output"}
        ensures Passes(interp, live, "bridge", hook, pkt) <==> BridgeAllowed(p, hook, pkt)
      {
        SameCanonicalSameVerdict(interp, live, doc, "bridge", hook, pkt);
        BridgeIsolation(interp, p, hook, pkt);
      }
    }
  }

  lemma {:induction false} EntriesAdmissible(family: string, chain: string, specs: seq<RuleSpec>)
    requires family in {"inet", "bridge"}
    ensures AllAdmissible(RuleEntries(family, chain, specs))
  {
    if specs != [] {
      EntriesAdmissible(family, chain, specs[1..]);
    }
  }

  /** The requested batch is itself a document the comparison accepts. */
  lemma GuardDocumentAdmissible(b: Batch)
    ensures AllAdmissible(Assemble(b))
  {
    EntriesAdmissible("inet", "input", b.opening);
    EntriesAdmissible("inet", "forward", b.opening);
    EntriesAdmissible("inet", "input", b.input);
    EntriesAdmissible("inet", "forward", b.forward);
    EntriesAdmissible("bridge", "input", b.bridgeInput);
    EntriesAdmissible("bridge", "forward", b.bridgeForward);
    EntriesAdmissible("bridge", "output", b.bridgeOutput);
  }
}
