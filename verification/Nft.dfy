/**
 Packets, rules and chains of an nftables ruleset, and the way the kernel decides a packet.

 A packet is the set of things a rule can load from it. Loading something a packet does not carry
 makes the match fail, so a `tcp` payload match fails on every other transport protocol and an `ip`
 payload match fails on IPv6; `WellFormed` says which loads exist together.
 */
module Nft {
  import opened Wrappers

  datatype Value = Text(text: string) | Num(number: int) | Addr(address: nat)

  datatype Operand = Lit(literal: Value) | Prefix(network: nat, length: nat) | AnyOf(elements: seq<Operand>)

  datatype Load = Meta(key: string) | Payload(protocol: string, field: string) | Ct(key: string)

  datatype Cond = Cond(op: string, left: Load, right: Operand)

  /** `Other` is any statement this model gives no meaning of its own (counter, log, reject, verdict maps, ...). */
  datatype Stmt =
    | Match(cond: Cond) | Accept | Drop | Jump(target: string) | Goto(target: string) | Return | Other(text: string)

  type Expr = seq<Stmt>

  type Packet = map<Load, Value>

  const L4PROTO := Meta("l4proto")
  const NFPROTO := Meta("nfproto")

  ghost predicate Carries(pkt: Packet, load: Load, value: Value) {
    load in pkt && pkt[load] == value
  }

  /** Which loads a packet can offer together. */
  ghost predicate WellFormed(pkt: Packet) {
    && (forall f :: Payload("tcp", f) in pkt ==> Carries(pkt, L4PROTO, Text("tcp")))
    && (forall f :: Payload("udp", f) in pkt ==> Carries(pkt, L4PROTO, Text("udp")))
    && (forall f :: Payload("ip", f) in pkt ==> Carries(pkt, NFPROTO, Text("ipv4")))
    && (Payload("ip", "saddr") in pkt <==> Payload("ip", "daddr") in pkt)
  }

  /** What the meaning of a ruleset depends on besides this model: the remaining operators and statements. */
  datatype Effect = Proceed | Break | Finish(accept: bool) | Leave | Call(target: string) | Continue(target: string)
  datatype Interp = Interp(compare: (string, Operand, Value) -> bool, other: (string, Packet) -> Effect)

  function Pow2(n: nat): (r: nat)
    ensures r > 0
  {
    if n == 0 then 1 else 2 * Pow2(n - 1)
  }

  predicate InPrefix(address: nat, network: nat, length: nat) {
    length <= 32 && address / Pow2(32 - length) == network / Pow2(32 - length)
  }

  predicate Covers(right: Operand, v: Value) {
    match right
    case Lit(w) => v == w
    case Prefix(network, length) => v.Addr? && InPrefix(v.address, network, length)
    case AnyOf(elements) => exists e | e in elements :: Covers(e, v)
  }

  predicate Compare(interp: Interp, op: string, right: Operand, v: Value) {
    if op == "==" || op == "in" then Covers(right, v)
    else if op == "!=" then !Covers(right, v)
    else interp.compare(op, right, v)
  }

  predicate Holds(interp: Interp, c: Cond, pkt: Packet) {
    c.left in pkt && Compare(interp, c.op, c.right, pkt[c.left])
  }

  /** What a rule or a chain did with the packet; `Returned` ends the chain without a decision. */
  datatype Outcome = Fallthrough | Returned | Passed | Blocked

  type Chains = map<string, seq<Expr>>

  /** The kernel allows this many nested jumps. */
  const JUMP_DEPTH: nat := 16

  function RunStmts(interp: Interp, chains: Chains, stmts: Expr, pkt: Packet, depth: nat): Outcome
    decreases depth, 0, |stmts|
  {
    if stmts == [] then Fallthrough
    else
      match stmts[0]
      case Match(c) => if Holds(interp, c, pkt) then RunStmts(interp, chains, stmts[1..], pkt, depth) else Fallthrough
      case Accept => Passed
      case Drop => Blocked
      case Jump(target) => Resumed(Enter(interp, chains, target, pkt, depth))
      case Goto(target) => Abandoned(Enter(interp, chains, target, pkt, depth))
      case Return => Returned
      case Other(text) =>
        match interp.other(text, pkt)
        case Proceed => RunStmts(interp, chains, stmts[1..], pkt, depth)
        case Break => Fallthrough
        case Finish(accept) => if accept then Passed else Blocked
        case Leave => Returned
        case Call(target) => Resumed(Enter(interp, chains, target, pkt, depth))
        case Continue(target) => Abandoned(Enter(interp, chains, target, pkt, depth))
  }

  /** After a jump that decided nothing, the next rule is tried. */
  function Resumed(inner: Outcome): Outcome { if inner.Returned? then Fallthrough else inner }

  /** After a goto that decided nothing, the chain it left is over as well. */
  function Abandoned(inner: Outcome): Outcome { if inner.Fallthrough? then Returned else inner }

  function Enter(interp: Interp, chains: Chains, target: string, pkt: Packet, depth: nat): Outcome
    decreases depth, 0, 0
  {
    if depth == 0 || target !in chains then Fallthrough else RunRules(interp, chains, chains[target], pkt, depth - 1)
  }

  /** Rules are tried in order; the first one that decides wins. */
  function RunRules(interp: Interp, chains: Chains, rules: seq<Expr>, pkt: Packet, depth: nat): Outcome
    decreases depth, 1, |rules|
  {
    if rules == [] then Fallthrough
    else
      var first := RunStmts(interp, chains, rules[0], pkt, depth);
      if first.Fallthrough? then RunRules(interp, chains, rules[1..], pkt, depth) else first
  }

  lemma {:induction false} RunRulesConcat(interp: Interp, chains: Chains, a: seq<Expr>, b: seq<Expr>, pkt: Packet,
                                          depth: nat)
    ensures RunRules(interp, chains, a + b, pkt, depth)
         == var first := RunRules(interp, chains, a, pkt, depth);
            if first.Fallthrough? then RunRules(interp, chains, b, pkt, depth) else first
    decreases |a|
  {
    if a == [] {
      assert a + b == b;
    } else {
      assert (a + b)[1..] == a[1..] + b;
      RunRulesConcat(interp, chains, a[1..], b, pkt, depth);
    }
  }

  /** A rule made of matches only, ending in `accept` or `drop`. */
  predicate PureRule(e: Expr) {
    && e != []
    && (e[|e| - 1] == Accept || e[|e| - 1] == Drop)
    && forall i :: 0 <= i < |e| - 1 ==> e[i].Match?
  }

  ghost predicate AllHold(interp: Interp, e: Expr, pkt: Packet)
    requires PureRule(e)
  {
    forall i :: 0 <= i < |e| - 1 ==> Holds(interp, e[i].cond, pkt)
  }

  /** A pure rule is the conjunction of its matches, whatever their order. */
  lemma {:induction false} RunPureRule(interp: Interp, chains: Chains, e: Expr, pkt: Packet, depth: nat)
    requires PureRule(e)
    ensures RunStmts(interp, chains, e, pkt, depth)
         == if !AllHold(interp, e, pkt) then Fallthrough else if e[|e| - 1] == Accept then Passed else Blocked
    decreases |e|
  {
    if |e| > 1 {
      var rest := e[1..];
      assert PureRule(rest) && rest[|rest| - 1] == e[|e| - 1];
      RunPureRule(interp, chains, rest, pkt, depth);
      assert AllHold(interp, e, pkt) <==> Holds(interp, e[0].cond, pkt) && AllHold(interp, rest, pkt) by {
        forall i | 1 <= i < |e| - 1 && AllHold(interp, rest, pkt)
          ensures Holds(interp, e[i].cond, pkt)
        {
          assert rest[i - 1] == e[i];
        }
      }
    }
  }
}
