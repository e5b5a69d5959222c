/**
 Which units stop when a unit stops: the closure of systemd's stop dependencies over the inspected units,
 and the uninspected units at its edge.
 */
module StopClosure {
  import opened Sorting

  /** One inspected unit; `others` joins the properties that only matter for the boundary. */
  datatype Record = Record(name: string, requiring: seq<string>, bindsTo: seq<string>, partOf: seq<string>,
                           requiredBy: seq<string>, boundBy: seq<string>, consistsOf: seq<string>, others: seq<string>)

  function Needs(r: Record): seq<string> { r.requiring + r.bindsTo + r.partOf }
  function Dependents(r: Record): seq<string> { r.requiredBy + r.boundBy + r.consistsOf }
  function Mentioned(r: Record): seq<string> { Needs(r) + Dependents(r) + r.others }

  function Names(records: seq<Record>): set<string> { set i | 0 <= i < |records| :: records[i].name }

  type Edges = map<string, set<string>>

  // ---------- meaning ----------

  /** Stopping `a` stops `b`: either side may declare it. */
  ghost predicate StopEdge(records: seq<Record>, a: string, b: string) {
    && a in Names(records) && b in Names(records)
    && exists i :: 0 <= i < |records| &&
         ((records[i].name == b && a in Needs(records[i])) || (records[i].name == a && b in Dependents(records[i])))
  }

  ghost predicate IsWalk(records: seq<Record>, walk: seq<string>) {
    forall i :: 0 <= i < |walk| - 1 ==> StopEdge(records, walk[i], walk[i + 1])
  }

  /** `b` is reached from `a` through one or more stop edges. */
  ghost predicate Reaches(records: seq<Record>, a: string, b: string) {
    exists walk :: |walk| >= 2 && walk[0] == a && walk[|walk| - 1] == b && IsWalk(records, walk)
  }

  /** The dependents of a unit that were not inspected, by its last record. */
  function OutsideOf(records: seq<Record>, name: string): set<string> {
    if records == [] then {}
    else
      var n := |records| - 1;
      if records[n].name == name then set x | x in Dependents(records[n])
      else OutsideOf(records[..n], name)
  }

  lemma ReachOne(records: seq<Record>, a: string, b: string)
    requires StopEdge(records, a, b)
    ensures Reaches(records, a, b)
  {
    var walk := [a, b];
    assert IsWalk(records, walk) && walk[|walk| - 1] == b;
  }

  lemma ReachFurther(records: seq<Record>, a: string, b: string, c: string)
    requires Reaches(records, a, b) && StopEdge(records, b, c)
    ensures Reaches(records, a, c)
  {
    var walk :| |walk| >= 2 && walk[0] == a && walk[|walk| - 1] == b && IsWalk(records, walk);
    var longer := walk + [c];
    forall i | 0 <= i < |longer| - 1
      ensures StopEdge(records, longer[i], longer[i + 1])
    {
      if i < |walk| - 1 { assert longer[i] == walk[i] && longer[i + 1] == walk[i + 1]; }
    }
    assert longer[|longer| - 1] == c;
  }

  /** A set closed under stop edges holds every walk that starts in it. */
  lemma {:induction false} ClosedHoldsWalks(records: seq<Record>, closed: set<string>, walk: seq<string>, k: nat)
    requires walk != [] && walk[0] in closed && IsWalk(records, walk) && k < |walk|
    requires forall a, b :: a in closed && StopEdge(records, a, b) ==> b in closed
    ensures walk[k] in closed
    decreases k
  {
    if k > 0 {
      ClosedHoldsWalks(records, closed, walk, k - 1);
      assert StopEdge(records, walk[k - 1], walk[(k - 1) + 1]);
    }
  }

  // ---------- building the edges ----------

  ghost predicate EdgesOf(records: seq<Record>, edges: Edges) {
    && edges.Keys == Names(records)
    && forall a, b :: a in edges ==> (b in edges[a] <==> StopEdge(records, a, b))
  }

  /** What the first `n` records have contributed. */
  ghost predicate EdgeFrom(records: seq<Record>, n: nat, a: string, b: string)
    requires n <= |records|
  {
    && a in Names(records) && b in Names(records)
    && exists i :: 0 <= i < n &&
         ((records[i].name == b && a in Needs(records[i])) || (records[i].name == a && b in Dependents(records[i])))
  }

  method BuildEdges(records: seq<Record>) returns (edges: Edges)
    ensures EdgesOf(records, edges)
  {
    var names := Names(records);
    edges := map n | n in names :: {};
    for k := 0 to |records|
      invariant edges.Keys == names
      invariant forall a, b :: a in edges ==> (b in edges[a] <==> EdgeFrom(records, k, a, b))
    {
      var r := records[k];
      assert r.name in names;
      edges := map a | a in edges :: edges[a]
        + (if a in Needs(r) then {r.name} else {})
        + (if a == r.name then set b | b in Dependents(r) && b in names else {});
      forall a, b | a in edges
        ensures b in edges[a] <==> EdgeFrom(records, k + 1, a, b)
      {
        EdgeFromSnoc(records, k, a, b);
      }
    }
    forall a, b
      ensures EdgeFrom(records, |records|, a, b) <==> StopEdge(records, a, b)
    {
    }
  }

  lemma EdgeFromSnoc(records: seq<Record>, k: nat, a: string, b: string)
    requires k < |records| && a in Names(records)
    ensures EdgeFrom(records, k + 1, a, b) <==>
      || EdgeFrom(records, k, a, b)
      || (records[k].name == b && a in Needs(records[k]))
      || (records[k].name == a && b in Dependents(records[k]) && b in Names(records))
  {
  }

  // ---------- the worklist ----------

  method SetToSeq(elements: set<string>) returns (r: seq<string>)
    ensures forall x :: x in r <==> x in elements
  {
    r := [];
    var rest := elements;
    while rest != {}
      invariant rest <= elements
      invariant forall x :: x in r <==> x in elements - rest
      decreases rest
    {
      var x :| x in rest;
      r := r + [x];
      rest := rest - {x};
    }
  }

  /** The search from one origin. It ends because every unit is found at most once. */
  method Search(records: seq<Record>, edges: Edges, origin: string) returns (found: set<string>)
    requires EdgesOf(records, edges) && origin in edges
    ensures forall x :: x in found <==> x != origin && Reaches(records, origin, x)
  {
    found := {};
    var pending := SetToSeq(edges[origin]);
    forall x | x in pending { ReachOne(records, origin, x); }
    while pending != []
      invariant found <= edges.Keys && origin !in found
      invariant forall x :: x in pending ==> x in edges && Reaches(records, origin, x)
      invariant forall x :: x in found ==> Reaches(records, origin, x)
      invariant forall a, b :: a in found + {origin} && StopEdge(records, a, b) ==>
                  b in found + {origin} || b in pending
      decreases edges.Keys - found, |pending|
    {
      var name := pending[|pending| - 1];
      ghost var before := pending;
      pending := pending[..|pending| - 1];
      assert before == pending + [name];
      if name !in found && name != origin {
        found := found + {name};
        var more := SetToSeq(edges[name]);
        forall x | x in more
          ensures x in edges && Reaches(records, origin, x)
        {
          ReachFurther(records, origin, name, x);
        }
        pending := pending + more;
      }
    }
    ClosedHoldsReached(records, found + {origin}, origin);
  }

  lemma ClosedHoldsReached(records: seq<Record>, closed: set<string>, origin: string)
    requires origin in closed && forall a, b :: a in closed && StopEdge(records, a, b) ==> b in closed
    ensures forall x :: Reaches(records, origin, x) ==> x in closed
  {
    forall x | Reaches(records, origin, x)
      ensures x in closed
    {
      var walk :| |walk| >= 2 && walk[0] == origin && walk[|walk| - 1] == x && IsWalk(records, walk);
      ClosedHoldsWalks(records, closed, walk, |walk| - 1);
    }
  }

  // ---------- the report ----------

  datatype Report = Report(dependents: map<string, seq<string>>, uninspectedByOrigin: map<string, seq<string>>,
                           boundary: seq<string>, uninspectedDependents: seq<string>)

  /** A unit that stops with the origin, or the origin itself. */
  ghost predicate StopsWith(records: seq<Record>, origin: string, name: string) {
    name == origin || Reaches(records, origin, name)
  }

  ghost predicate Outside(records: seq<Record>, origin: string, x: string) {
    x !in Names(records) && exists name :: StopsWith(records, origin, name) && x in OutsideOf(records, name)
  }

  /** Exactly the other inspected units that stop with the origin. */
  ghost predicate ListsDependents(records: seq<Record>, origin: string, list: seq<string>) {
    Ascending(list) && forall x :: x in list <==> x != origin && Reaches(records, origin, x)
  }

  /** Exactly the uninspected dependents next to those units or to the origin. */
  ghost predicate ListsOutside(records: seq<Record>, origin: string, list: seq<string>) {
    Ascending(list) && forall x :: x in list <==> Outside(records, origin, x)
  }

  method OutsideByUnit(records: seq<Record>) returns (outside: map<string, set<string>>)
    ensures outside.Keys == Names(records)
    ensures forall n :: n in outside ==> outside[n] == OutsideOf(records, n) - Names(records)
  {
    var names := Names(records);
    outside := map[];
    for k := 0 to |records|
      invariant outside.Keys == Names(records[..k])
      invariant forall n :: n in outside ==> outside[n] == OutsideOf(records[..k], n) - names
    {
      var r := records[k];
      assert records[..k + 1][..k] == records[..k] && records[..k + 1][k] == r;
      NamesSnoc(records, k);
      outside := outside[r.name := set x | x in Dependents(r) && x !in names];
    }
    assert records[..|records|] == records;
  }

  lemma NamesSnoc(records: seq<Record>, k: nat)
    requires k < |records|
    ensures Names(records[..k + 1]) == Names(records[..k]) + {records[k].name}
  {
    var a, b := records[..k + 1], records[..k];
    forall n
      ensures n in Names(a) <==> n in Names(b) + {records[k].name}
    {
      if n in Names(a) {
        var i :| 0 <= i < |a| && a[i].name == n;
        if i < k { assert b[i] == a[i]; }
      }
      if n in Names(b) {
        var i :| 0 <= i < |b| && b[i].name == n;
        assert a[i] == b[i];
      }
      assert a[k] == records[k];
    }
  }

  method UnionOver(outside: map<string, set<string>>, units: set<string>) returns (r: set<string>)
    requires units <= outside.Keys
    ensures forall x :: x in r <==> exists n :: n in units && x in outside[n]
  {
    r := {};
    var rest := units;
    while rest != {}
      invariant rest <= units
      invariant forall x :: x in r <==> exists n :: n in units - rest && x in outside[n]
      decreases rest
    {
      var n :| n in rest;
      r := r + outside[n];
      rest := rest - {n};
    }
  }

  /** Every uninspected name a field of the records mentions. */
  method CollectOutside(records: seq<Record>, field: Record -> seq<string>) returns (r: set<string>)
    ensures forall x :: x in r <==> x !in Names(records) && exists i :: 0 <= i < |records| && x in field(records[i])
  {
    var names := Names(records);
    r := {};
    for k := 0 to |records|
      invariant forall x :: x in r <==> x !in names && exists i :: 0 <= i < k && x in field(records[i])
    {
      r := r + set x | x in field(records[k]) && x !in names;
    }
  }

  /** `dependency_closure`: for each origin exactly what stops with it, and exactly the uninspected edge of that. */
  method DependencyClosure(records: seq<Record>) returns (report: Report)
    ensures report.dependents.Keys == report.uninspectedByOrigin.Keys == Names(records)
    ensures forall o :: o in Names(records) ==> ListsDependents(records, o, report.dependents[o])
    ensures forall o :: o in Names(records) ==> ListsOutside(records, o, report.uninspectedByOrigin[o])
    ensures Ascending(report.boundary) && Ascending(report.uninspectedDependents)
    ensures forall x :: x in report.boundary <==>
              x !in Names(records) && exists i :: 0 <= i < |records| && x in Mentioned(records[i])
    ensures forall x :: x in report.uninspectedDependents <==>
              x !in Names(records) && exists i :: 0 <= i < |records| && x in Dependents(records[i])
  {
    var edges := BuildEdges(records);
    var outside := OutsideByUnit(records);
    var closure: map<string, seq<string>>, byOrigin: map<string, seq<string>> := map[], map[];
    var rest := Names(records);
    while rest != {}
      invariant rest <= Names(records) && closure.Keys == byOrigin.Keys == Names(records) - rest
      invariant forall o :: o in closure ==>
                  ListsDependents(records, o, closure[o]) && ListsOutside(records, o, byOrigin[o])
      decreases rest
    {
      var origin :| origin in rest;
      var dependents, edge := OneOrigin(records, edges, outside, origin);
      closure := closure[origin := dependents];
      byOrigin := byOrigin[origin := edge];
      rest := rest - {origin};
    }
    var boundary := CollectOutside(records, Mentioned);
    var dependents := CollectOutside(records, Dependents);
    var sortedBoundary := SortSet(boundary);
    var sortedDependents := SortSet(dependents);
    report := Report(closure, byOrigin, sortedBoundary, sortedDependents);
  }

  method OneOrigin(records: seq<Record>, edges: Edges, outside: map<string, set<string>>, origin: string)
    returns (dependents: seq<string>, edge: seq<string>)
    requires EdgesOf(records, edges) && origin in edges && outside.Keys == Names(records)
    requires forall n :: n in outside ==> outside[n] == OutsideOf(records, n) - Names(records)
    ensures ListsDependents(records, origin, dependents) && ListsOutside(records, origin, edge)
  {
    var found := Search(records, edges, origin);
    dependents := SortSet(found);
    forall x | x in found { ReachedIsInspected(records, origin, x); }
    var union := UnionOver(outside, found + {origin});
    edge := SortSet(union);
    forall x
      ensures x in union <==> Outside(records, origin, x)
    {
      if Outside(records, origin, x) {
        var name :| StopsWith(records, origin, name) && x in OutsideOf(records, name);
        assert name in found + {origin};
        assert x in outside[name];
      }
      if x in union {
        var n :| n in found + {origin} && x in outside[n];
        assert StopsWith(records, origin, n);
      }
    }
  }

  lemma ReachedIsInspected(records: seq<Record>, origin: string, x: string)
    requires Reaches(records, origin, x)
    ensures x in Names(records)
  {
    var walk :| |walk| >= 2 && walk[0] == origin && walk[|walk| - 1] == x && IsWalk(records, walk);
    assert StopEdge(records, walk[|walk| - 2], walk[(|walk| - 2) + 1]);
  }
}
