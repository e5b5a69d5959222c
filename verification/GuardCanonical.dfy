/**
 Normal form of an nftables document: what `ensure_guard` and `verify_guard` compare.

 The kernel's readback leaves out an `l4proto` match that a later port match implies, adds object
 handles and may list the chains in another order. Two documents are equal for the guard when they
 are equal after undoing exactly that.
 */
module GuardCanonical {
  import opened Wrappers
  import opened Nft

  const TABLE := "hetero_dev"

  // ---------- rule expressions ----------

  predicate ProtocolTest(s: Stmt) {
    && s.Match? && s.cond.op == "==" && s.cond.left == L4PROTO
    && (s.cond.right == Lit(Text("tcp")) || s.cond.right == Lit(Text("udp")))
  }

  function TestedProtocol(s: Stmt): string
    requires ProtocolTest(s)
  {
    s.cond.right.literal.text
  }

  predicate ConflictsWith(s: Stmt, other: Stmt)
    requires ProtocolTest(s) && other.Match?
  {
    || (other.cond.left == L4PROTO && other.cond != s.cond)
    || (other.cond.left.Payload? && other.cond.left.protocol in {"tcp", "udp"}
        && other.cond.left.protocol != TestedProtocol(s))
  }

  predicate Conflicting(e: Expr, i: nat)
    requires PureRule(e) && i < |e| && ProtocolTest(e[i])
  {
    exists j | 0 <= j < |e| - 1 :: ConflictsWith(e[i], e[j])
  }

  predicate PortMatch(s: Stmt, protocol: string) {
    s.Match? && s.cond.op == "=="
      && (s.cond.left == Payload(protocol, "sport") || s.cond.left == Payload(protocol, "dport"))
  }

  predicate Implied(e: Expr, i: nat)
    requires i < |e| && ProtocolTest(e[i])
  {
    exists j | i < j < |e| :: PortMatch(e[j], TestedProtocol(e[i]))
  }

  predicate Redundant(e: Expr, i: nat)
    requires PureRule(e) && i < |e|
  {
    ProtocolTest(e[i]) && !Conflicting(e, i) && Implied(e, i)
  }

  /** What is left of the first `n` statements. */
  function Kept(e: Expr, n: nat): (r: Expr)
    requires PureRule(e) && n <= |e|
  {
    if n == 0 then [] else Kept(e, n - 1) + (if Redundant(e, n - 1) then [] else [e[n - 1]])
  }

  function Canonical(e: Expr): (r: Expr) {
    if PureRule(e) then Kept(e, |e|) else e
  }

  /** `canonical_rule_expressions`: one pass that appends the statements worth keeping. */
  method CanonicalRuleExpressions(expressions: Expr) returns (result: Expr)
    ensures result == Canonical(expressions)
  {
    if expressions == [] || (expressions[|expressions| - 1] != Accept && expressions[|expressions| - 1] != Drop) {
      return expressions;
    }
    if exists i | 0 <= i < |expressions| - 1 :: !expressions[i].Match? {
      return expressions;
    }
    result := [];
    for index := 0 to |expressions|
      invariant result == Kept(expressions, index)
    {
      var item := expressions[index];
      if ProtocolTest(item) {
        var conflicting := false;
        for j := 0 to |expressions| - 1
          invariant conflicting <==> exists k | 0 <= k < j :: ConflictsWith(item, expressions[k])
        {
          conflicting := conflicting || ConflictsWith(item, expressions[j]);
        }
        if conflicting {
          result := result + [item];
          continue;
        }
        var implied := false;
        for j := index + 1 to |expressions|
          invariant implied <==> exists k | index < k < j :: PortMatch(expressions[k], TestedProtocol(item))
        {
          implied := implied || PortMatch(expressions[j], TestedProtocol(item));
        }
        if implied {
          continue;
        }
      }
      result := result + [item];
    }
  }

  /** Where a kept statement stands in the result. */
  lemma {:induction false} KeptAt(e: Expr, n: nat, s: nat)
    requires PureRule(e) && s < n <= |e| && !Redundant(e, s)
    ensures |Kept(e, s)| < |Kept(e, n)| && Kept(e, n)[|Kept(e, s)|] == e[s]
    decreases n
  {
    if s < n - 1 {
      KeptAt(e, n - 1, s);
    }
  }

  /** Where a statement of the result came from. */
  lemma {:induction false} KeptFrom(e: Expr, n: nat, i: nat) returns (s: nat)
    requires PureRule(e) && n <= |e| && i < |Kept(e, n)|
    ensures s < n && !Redundant(e, s) && Kept(e, n)[i] == e[s] && |Kept(e, s)| == i
    decreases n
  {
    if i < |Kept(e, n - 1)| {
      s := KeptFrom(e, n - 1, i);
    } else {
      s := n - 1;
    }
  }

  lemma {:induction false} KeptGrows(e: Expr, m: nat, n: nat)
    requires PureRule(e) && m <= n <= |e|
    ensures |Kept(e, m)| <= |Kept(e, n)|
    decreases n
  {
    if m < n {
      KeptGrows(e, m, n - 1);
    }
  }

  lemma {:induction false} CanonicalIsPure(e: Expr)
    requires PureRule(e)
    ensures PureRule(Canonical(e)) && Canonical(e)[|Canonical(e)| - 1] == e[|e| - 1]
    ensures |Kept(e, |e| - 1)| == |Canonical(e)| - 1
  {
    var r := Canonical(e);
    assert !Redundant(e, |e| - 1);
    forall i | 0 <= i < |r| - 1
      ensures r[i].Match?
    {
      var s := KeptFrom(e, |e| - 1, i);
    }
  }

  /** Dropping an implied `l4proto` match never changes what a rule decides. */
  lemma CanonicalKeepsConjunction(interp: Interp, e: Expr, pkt: Packet)
    requires PureRule(e) && WellFormed(pkt)
    ensures PureRule(Canonical(e)) && (AllHold(interp, Canonical(e), pkt) <==> AllHold(interp, e, pkt))
  {
    var r := Canonical(e);
    CanonicalIsPure(e);
    if AllHold(interp, e, pkt) {
      forall i | 0 <= i < |r| - 1
        ensures Holds(interp, r[i].cond, pkt)
      {
        var s := KeptFrom(e, |e| - 1, i);
      }
    }
    if AllHold(interp, r, pkt) {
      forall s | 0 <= s < |e| - 1
        ensures Holds(interp, e[s].cond, pkt)
      {
        DroppedHolds(interp, e, pkt, s);
      }
    }
  }

  /** A statement left out of the canonical form holds because a later port match does. */
  lemma DroppedHolds(interp: Interp, e: Expr, pkt: Packet, s: nat)
    requires PureRule(e) && PureRule(Canonical(e)) && WellFormed(pkt) && AllHold(interp, Canonical(e), pkt)
             && s < |e| - 1
    ensures Holds(interp, e[s].cond, pkt)
  {
    CanonicalIsPure(e);
    var r := Canonical(e);
    if !Redundant(e, s) {
      KeptAt(e, |e| - 1, s);
      assert r[|Kept(e, s)|] == e[s];
    } else {
      var j :| s < j < |e| && PortMatch(e[j], TestedProtocol(e[s]));
      assert !Redundant(e, j);
      KeptAt(e, |e| - 1, j);
      assert r[|Kept(e, j)|] == e[j];
    }
  }

  lemma StaysUnredundant(e: Expr, i: nat)
    requires PureRule(e) && PureRule(Canonical(e)) && i < |Canonical(e)|
    ensures !Redundant(Canonical(e), i)
  {
    var r := Canonical(e);
    CanonicalIsPure(e);
    var s := KeptFrom(e, |e|, i);
    if ProtocolTest(r[i]) {
      if Conflicting(e, s) {
        var t :| 0 <= t < |e| - 1 && ConflictsWith(e[s], e[t]);
        if ProtocolTest(e[t]) {
          assert ConflictsWith(e[t], e[s]);
        }
        assert !Redundant(e, t);
        KeptAt(e, |e| - 1, t);
        assert ConflictsWith(r[i], r[|Kept(e, t)|]);
      } else if Implied(r, i) {
        var j :| i < j < |r| && PortMatch(r[j], TestedProtocol(r[i]));
        var t := KeptFrom(e, |e|, j);
        if t <= s {
          KeptGrows(e, t, s);
        }
      }
    }
  }

  lemma {:induction false} KeptAll(e: Expr, n: nat)
    requires PureRule(e) && n <= |e|
    requires forall i :: 0 <= i < |e| ==> !Redundant(e, i)
    ensures Kept(e, n) == e[..n]
    decreases n
  {
    if n > 0 {
      KeptAll(e, n - 1);
    }
  }

  /** Normalising twice is normalising once. */
  lemma CanonicalIdempotent(e: Expr)
    ensures Canonical(Canonical(e)) == Canonical(e)
  {
    if PureRule(e) {
      var r := Canonical(e);
      CanonicalIsPure(e);
      forall i | 0 <= i < |r|
        ensures !Redundant(r, i)
      {
        StaysUnredundant(e, i);
      }
      KeptAll(r, |r|);
      assert r[..|r|] == r;
    }
  }

  // ---------- documents ----------

  /** Attributes besides the ones named here: hook, type, prio, policy, comment, handle, index. */
  datatype Item =
    | Table(family: string, name: string, fields: map<string, string>)
    | Chain(family: string, table: string, name: string, fields: map<string, string>)
    | Rule(family: string, table: string, chain: string, expr: Expr, fields: map<string, string>)

  /** One element of the "nftables" list; `Unexpected` is any other object. */
  datatype Entry = Metainfo | Object(added: bool, item: Item) | Unexpected

  type Document = seq<Entry>

  datatype Kind = TableKind | ChainKind | RuleKind

  datatype Key = Key(family: string, kind: Kind, name: string)

  function KeyOf(item: Item): Key {
    match item
    case Table(family, name, _) => Key(family, TableKind, name)
    case Chain(family, _, name, _) => Key(family, ChainKind, name)
    case Rule(family, _, chain, _, _) => Key(family, RuleKind, chain)
  }

  predicate InScope(item: Item) {
    item.family in {"inet", "bridge"} && (if item.Table? then item.name else item.table) == TABLE
  }

  function Cleaned(item: Item): Item {
    match item
    case Table(family, name, fields) => Table(family, name, fields - {"handle", "index"})
    case Chain(family, table, name, fields) => Chain(family, table, name, fields - {"handle", "index"})
    case Rule(family, table, chain, expr, fields) =>
      Rule(family, table, chain, Canonical(expr), fields - {"handle", "index"})
  }

  predicate Admissible(entry: Entry) {
    match entry
    case Metainfo => true
    case Object(_, item) => InScope(item)
    case Unexpected => false
  }

  ghost predicate AllAdmissible(doc: Document) {
    forall i :: 0 <= i < |doc| ==> Admissible(doc[i])
  }

  predicate IsAt(entry: Entry, key: Key) {
    entry.Object? && KeyOf(entry.item) == key
  }

  /** The objects filed under one key, in document order. */
  function Project(doc: Document, key: Key): seq<Item> {
    if doc == [] then []
    else
      var n := |doc| - 1;
      Project(doc[..n], key) + if IsAt(doc[n], key) then [Cleaned(doc[n].item)] else []
  }

  type Groups = map<Key, seq<Item>>

  /** The groups hold every object of the document and nothing else. */
  ghost predicate Holding(groups: Groups, doc: Document) {
    && (forall k :: k in groups <==> Project(doc, k) != [])
    && (forall k :: k in groups ==> groups[k] == Project(doc, k))
  }

  /** `canonical_guard`: file every object under its key; anything foreign is refused. */
  method CanonicalGuard(doc: Document) returns (r: Result<Groups>)
    ensures r.Accepted? <==> AllAdmissible(doc)
    ensures r.Accepted? ==> Holding(r.value, doc)
  {
    var groups: Groups := map[];
    for i := 0 to |doc|
      invariant AllAdmissible(doc[..i])
      invariant Holding(groups, doc[..i])
    {
      assert doc[..i + 1][..i] == doc[..i] && doc[..i + 1][i] == doc[i];
      if doc[i].Metainfo? {
        continue;
      }
      if doc[i].Unexpected? {
        return Refused;
      }
      var item;
      match doc[i].item {
        case Table(family, name, fields) =>
          item := Table(family, name, fields - {"handle", "index"});
        case Chain(family, table, name, fields) =>
          item := Chain(family, table, name, fields - {"handle", "index"});
        case Rule(family, table, chain, expr, fields) =>
          var normal := CanonicalRuleExpressions(expr);
          item := Rule(family, table, chain, normal, fields - {"handle", "index"});
      }
      if !InScope(item) {
        return Refused;
      }
      var key := KeyOf(item);
      groups := groups[key := (if key in groups then groups[key] else []) + [item]];
    }
    assert doc[..|doc|] == doc;
    r := Accepted(groups);
  }

  ghost predicate SameCanonical(d1: Document, d2: Document) {
    AllAdmissible(d1) && AllAdmissible(d2) && forall k :: Project(d1, k) == Project(d2, k)
  }

  /** Comparing canonical guards compares every object list. */
  lemma EqualGroups(d1: Document, d2: Document, g1: Groups, g2: Groups)
    requires AllAdmissible(d1) && AllAdmissible(d2) && Holding(g1, d1) && Holding(g2, d2)
    ensures g1 == g2 <==> SameCanonical(d1, d2)
  {
    if g1 == g2 {
      forall k
        ensures Project(d1, k) == Project(d2, k)
      {
        assert k in g1 <==> k in g2;
      }
    }
    if SameCanonical(d1, d2) {
      forall k
        ensures k in g1 <==> k in g2
      {
        assert Project(d1, k) == Project(d2, k);
      }
    }
  }

  // ---------- meaning of a document ----------

  function DeclarationsOf(doc: Document, family: string, name: string): seq<map<string, string>> {
    if doc == [] then []
    else
      var n := |doc| - 1;
      DeclarationsOf(doc[..n], family, name)
      + if IsAt(doc[n], Key(family, ChainKind, name)) then [doc[n].item.fields] else []
  }

  function RulesOf(doc: Document, family: string, name: string): seq<Expr> {
    if doc == [] then []
    else
      var n := |doc| - 1;
      RulesOf(doc[..n], family, name)
      + if IsAt(doc[n], Key(family, RuleKind, name)) then [doc[n].item.expr] else []
  }

  function ChainNames(doc: Document, family: string): set<string> {
    set i | 0 <= i < |doc| && doc[i].Object? && doc[i].item.Chain? && doc[i].item.family == family :: doc[i].item.name
  }

  function ChainTable(doc: Document, family: string): Chains {
    map name | name in ChainNames(doc, family) :: RulesOf(doc, family, name)
  }

  function FieldOf(fields: map<string, string>, key: string): Option<string> {
    if key in fields then Some(fields[key]) else None
  }

  /** A chain is attached to the hook its declaration names. */
  predicate AttachedTo(doc: Document, family: string, name: string, hook: string) {
    var declared := DeclarationsOf(doc, family, name);
    declared != [] && FieldOf(declared[0], "hook") == Some(hook)
  }

  predicate ChainPasses(interp: Interp, doc: Document, family: string, name: string, pkt: Packet)
    requires DeclarationsOf(doc, family, name) != []
  {
    match RunRules(interp, ChainTable(doc, family), RulesOf(doc, family, name), pkt, JUMP_DEPTH)
    case Passed => true
    case Blocked => false
    case _ => FieldOf(DeclarationsOf(doc, family, name)[0], "policy") != Some("drop")
  }

  /** A packet gets through a hook when every chain attached there lets it. */
  ghost predicate Passes(interp: Interp, doc: Document, family: string, hook: string, pkt: Packet) {
    forall name :: AttachedTo(doc, family, name, hook) ==> ChainPasses(interp, doc, family, name, pkt)
  }

  function CanonicalRules(rules: seq<Expr>): (r: seq<Expr>)
    ensures |r| == |rules|
    ensures forall i :: 0 <= i < |r| ==> r[i] == Canonical(rules[i])
  {
    seq(|rules|, i requires 0 <= i < |rules| => Canonical(rules[i]))
  }

  lemma {:induction false} RulesFromProjection(d1: Document, d2: Document, family: string, name: string)
    requires Project(d1, Key(family, RuleKind, name)) == Project(d2, Key(family, RuleKind, name))
    ensures CanonicalRules(RulesOf(d1, family, name)) == CanonicalRules(RulesOf(d2, family, name))
  {
    RulesOfProjection(d1, family, name);
    RulesOfProjection(d2, family, name);
  }

  lemma {:induction false} RulesOfProjection(doc: Document, family: string, name: string)
    ensures var items := Project(doc, Key(family, RuleKind, name));
            && |items| == |RulesOf(doc, family, name)|
            && forall i :: 0 <= i < |items| ==>
              items[i].Rule? && items[i].expr == Canonical(RulesOf(doc, family, name)[i])
    decreases |doc|
  {
    if doc != [] {
      RulesOfProjection(doc[..|doc| - 1], family, name);
    }
  }

  lemma {:induction false} DeclarationsOfProjection(doc: Document, family: string, name: string)
    ensures var items := Project(doc, Key(family, ChainKind, name));
            && |items| == |DeclarationsOf(doc, family, name)|
            && forall i :: 0 <= i < |items| ==>
                 items[i].Chain? && items[i].fields == DeclarationsOf(doc, family, name)[i] - {"handle", "index"}
    ensures name in ChainNames(doc, family) <==> DeclarationsOf(doc, family, name) != []
    decreases |doc|
  {
    if doc != [] {
      var n := |doc| - 1;
      var init := doc[..n];
      DeclarationsOfProjection(init, family, name);
      if name in ChainNames(doc, family) && !IsAt(doc[n], Key(family, ChainKind, name)) {
        var i :| 0 <= i < |doc| && doc[i].Object? && doc[i].item.Chain? && doc[i].item.family == family
          && doc[i].item.name == name;
        assert init[i] == doc[i];
        assert name in ChainNames(init, family);
      }
      if name in ChainNames(init, family) {
        var i :| 0 <= i < |init| && init[i].Object? && init[i].item.Chain? && init[i].item.family == family
          && init[i].item.name == name;
        assert doc[i] == init[i];
      }
    }
  }

  /** Normalising every chain leaves every outcome as it was. */
  lemma {:induction false} CanonicalRuns(interp: Interp, c1: Chains, c2: Chains, rules1: seq<Expr>, rules2: seq<Expr>,
                                         pkt: Packet, depth: nat)
    requires WellFormed(pkt) && SameChains(c1, c2) && CanonicalRules(rules1) == CanonicalRules(rules2)
    ensures RunRules(interp, c1, rules1, pkt, depth) == RunRules(interp, c2, rules2, pkt, depth)
    decreases depth, 1, |rules1|
  {
    if rules1 != [] {
      assert Canonical(rules1[0]) == CanonicalRules(rules1)[0] == CanonicalRules(rules2)[0] == Canonical(rules2[0]);
      CanonicalRuns1(interp, c1, c2, rules1[0], rules2[0], pkt, depth);
      assert CanonicalRules(rules1[1..]) == CanonicalRules(rules1)[1..];
      assert CanonicalRules(rules2[1..]) == CanonicalRules(rules2)[1..];
      CanonicalRuns(interp, c1, c2, rules1[1..], rules2[1..], pkt, depth);
    } else {
      assert rules2 == [];
    }
  }

  ghost predicate SameChains(c1: Chains, c2: Chains) {
    c1.Keys == c2.Keys && forall n :: n in c1 ==> CanonicalRules(c1[n]) == CanonicalRules(c2[n])
  }

  lemma CanonicalRuns1(interp: Interp, c1: Chains, c2: Chains, e1: Expr, e2: Expr, pkt: Packet, depth: nat)
    requires WellFormed(pkt) && SameChains(c1, c2) && Canonical(e1) == Canonical(e2)
    ensures RunStmts(interp, c1, e1, pkt, depth) == RunStmts(interp, c2, e2, pkt, depth)
    decreases depth, 0, |e1| + 1
  {
    if PureRule(e1) || PureRule(e2) {
      PurityIsCanonical(e1, e2);
      CanonicalIsPure(e1);
      CanonicalIsPure(e2);
      CanonicalKeepsConjunction(interp, e1, pkt);
      CanonicalKeepsConjunction(interp, e2, pkt);
      RunPureRule(interp, c1, e1, pkt, depth);
      RunPureRule(interp, c2, e2, pkt, depth);
    } else {
      SameStmts(interp, c1, c2, e1, pkt, depth);
    }
  }

  lemma PurityIsCanonical(e1: Expr, e2: Expr)
    requires Canonical(e1) == Canonical(e2)
    ensures PureRule(e1) <==> PureRule(e2)
  {
    if PureRule(e1) { CanonicalIsPure(e1); }
    if PureRule(e2) { CanonicalIsPure(e2); }
  }

  lemma {:induction false} SameStmts(interp: Interp, c1: Chains, c2: Chains, e: Expr, pkt: Packet, depth: nat)
    requires WellFormed(pkt) && SameChains(c1, c2)
    ensures RunStmts(interp, c1, e, pkt, depth) == RunStmts(interp, c2, e, pkt, depth)
    decreases depth, 0, |e|
  {
    if e != [] {
      SameStmts(interp, c1, c2, e[1..], pkt, depth);
      match e[0] {
        case Jump(target) => SameEntry(interp, c1, c2, target, pkt, depth);
        case Goto(target) => SameEntry(interp, c1, c2, target, pkt, depth);
        case Other(text) =>
          var effect := interp.other(text, pkt);
          if effect.Call? || effect.Continue? { SameEntry(interp, c1, c2, effect.target, pkt, depth); }
        case _ =>
      }
    }
  }

  lemma SameEntry(interp: Interp, c1: Chains, c2: Chains, target: string, pkt: Packet, depth: nat)
    requires WellFormed(pkt) && SameChains(c1, c2)
    ensures Enter(interp, c1, target, pkt, depth) == Enter(interp, c2, target, pkt, depth)
    decreases depth, 0, 0
  {
    if depth > 0 && target in c1 {
      CanonicalRuns(interp, c1, c2, c1[target], c2[target], pkt, depth - 1);
    }
  }

  /** Two documents with equal canonical guards decide every packet alike at every hook. */
  lemma SameCanonicalSameVerdict(interp: Interp, d1: Document, d2: Document, family: string, hook: string, pkt: Packet)
    requires SameCanonical(d1, d2) && WellFormed(pkt)
    ensures Passes(interp, d1, family, hook, pkt) <==> Passes(interp, d2, family, hook, pkt)
  {
    if Passes(interp, d1, family, hook, pkt) {
      SameCanonicalOneWay(interp, d1, d2, family, hook, pkt);
    }
    if Passes(interp, d2, family, hook, pkt) {
      SameCanonicalOneWay(interp, d2, d1, family, hook, pkt);
    }
  }

  lemma SameCanonicalOneWay(interp: Interp, d1: Document, d2: Document, family: string, hook: string, pkt: Packet)
    requires SameCanonical(d1, d2) && WellFormed(pkt) && Passes(interp, d1, family, hook, pkt)
    ensures Passes(interp, d2, family, hook, pkt)
  {
    SameTables(d1, d2, family);
    forall name | AttachedTo(d2, family, name, hook)
      ensures ChainPasses(interp, d2, family, name, pkt)
    {
      SameDeclaration(d1, d2, family, name);
      RulesFromProjection(d1, d2, family, name);
      CanonicalRuns(interp, ChainTable(d1, family), ChainTable(d2, family),
                    RulesOf(d1, family, name), RulesOf(d2, family, name), pkt, JUMP_DEPTH);
      assert ChainPasses(interp, d1, family, name, pkt);
    }
  }

  lemma SameDeclaration(d1: Document, d2: Document, family: string, name: string)
    requires SameCanonical(d1, d2)
    ensures |DeclarationsOf(d1, family, name)| == |DeclarationsOf(d2, family, name)|
    ensures DeclarationsOf(d1, family, name) != [] ==>
              forall key :: key !in {"handle", "index"} ==>
                FieldOf(DeclarationsOf(d1, family, name)[0], key) == FieldOf(DeclarationsOf(d2, family, name)[0], key)
  {
    DeclarationsOfProjection(d1, family, name);
    DeclarationsOfProjection(d2, family, name);
    assert Project(d1, Key(family, ChainKind, name)) == Project(d2, Key(family, ChainKind, name));
    if DeclarationsOf(d1, family, name) != [] {
      var f1, f2 := DeclarationsOf(d1, family, name)[0], DeclarationsOf(d2, family, name)[0];
      assert f1 - {"handle", "index"} == f2 - {"handle", "index"};
      forall key | key !in {"handle", "index"}
        ensures FieldOf(f1, key) == FieldOf(f2, key)
      {
        assert key in f1 <==> key in f1 - {"handle", "index"};
        assert key in f2 <==> key in f2 - {"handle", "index"};
      }
    }
  }

  lemma SameTables(d1: Document, d2: Document, family: string)
    requires SameCanonical(d1, d2)
    ensures SameChains(ChainTable(d1, family), ChainTable(d2, family))
  {
    forall name
      ensures name in ChainNames(d1, family) <==> name in ChainNames(d2, family)
      ensures CanonicalRules(RulesOf(d1, family, name)) == CanonicalRules(RulesOf(d2, family, name))
    {
      DeclarationsOfProjection(d1, family, name);
      DeclarationsOfProjection(d2, family, name);
      assert Project(d1, Key(family, ChainKind, name)) == Project(d2, Key(family, ChainKind, name));
      assert Project(d1, Key(family, RuleKind, name)) == Project(d2, Key(family, RuleKind, name));
      RulesFromProjection(d1, d2, family, name);
    }
  }
}
