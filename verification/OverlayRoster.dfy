/**
 The overlay recovery map: which peers a host may contact before its agent has rejoined the cluster. Built
 from an operator-approved roster, kept in the agent's state, and rebuilt at every boot.
 */
module OverlayRoster {
  import opened Wrappers
  import Texts
  import opened Finite

  datatype Endpoint = Endpoint(nodeId: string, addr: string)

  datatype Peer = Peer(cluster: string, hostname: string, nodeId: string, vpn: string, wireguard: string,
                       identity: string,
                       controlPlane: bool, routes: bool, endpoints: seq<Endpoint>)

  /** The five fields no two recovery peers may share. */
  datatype Field = Hostname | NodeId | Vpn | Wireguard | Identity

  const FIELDS := [Hostname, NodeId, Vpn, Wireguard, Identity]

  function Get(p: Peer, field: Field): string {
    match field
    case Hostname => p.hostname
    case NodeId => p.nodeId
    case Vpn => p.vpn
    case Wireguard => p.wireguard
    case Identity => p.identity
  }

  /** Whether text is an address in 10.250.0.0/24, 32 base64-encoded bytes, or an address with a port in 1..65535. */
  datatype Formats = Formats(overlay: string -> bool, key: string -> bool, direct: string -> bool)

  datatype NodeState = Active | Stopped(reason: string) | Malformed

  datatype Roster = Roster(schema: int, cluster: string, peers: seq<Peer>, hosts: map<string, string>,
                           states: map<string, NodeState>)

  datatype Registered = Registered(cluster: string, nodeId: string, wireguard: string, identity: string)

  datatype Cache = Cache(cluster: Option<string>, peers: Option<seq<Peer>>, endpoints: Option<seq<string>>,
                         generatedAt: Option<int>)

  datatype State = State(registered: Option<Registered>, nodeId: string, wireguard: string, identity: string,
                         cache: Cache, endpoints: Option<seq<string>>, updatedAt: int)

  // ---------- node_lifecycle ----------

  predicate Blank(s: string) { forall i :: 0 <= i < |s| ==> Texts.White(s[i]) }

  predicate LifecycleValid(roster: Roster) {
    && (forall host :: host in roster.states ==> host in roster.hosts)
    && (forall host :: host in roster.states ==>
          roster.states[host].Active? || (roster.states[host].Stopped? && !Blank(roster.states[host].reason)))
  }

  /** `stopped_hosts`. */
  function StoppedHosts(roster: Roster): Result<set<string>> {
    if LifecycleValid(roster) then Accepted(set host | host in roster.states && roster.states[host].Stopped?)
       else Refused
  }

  predicate IsStopped(roster: Roster, host: string) { host in roster.states && roster.states[host].Stopped? }

  /** The node ids behind the stopped hosts. */
  function StoppedIds(roster: Roster): set<string>
    requires LifecycleValid(roster)
  {
    set host | host in roster.states && roster.states[host].Stopped? :: roster.hosts[host]
  }

  function Without(peers: seq<Peer>, ids: set<string>): seq<Peer> {
    if peers == [] then [] else (if peers[0].nodeId in ids then [] else [peers[0]]) + Without(peers[1..], ids)
  }

  /** `active_peers`. */
  function ActivePeers(roster: Roster): Result<seq<Peer>> {
    if LifecycleValid(roster) then Accepted(Without(roster.peers, StoppedIds(roster))) else Refused
  }

  lemma {:induction false} WithoutIsExact(peers: seq<Peer>, ids: set<string>, p: Peer)
    ensures p in Without(peers, ids) <==> p in peers && p.nodeId !in ids
  {
    if peers != [] {
      WithoutIsExact(peers[1..], ids, p);
      assert p in peers <==> p == peers[0] || p in peers[1..];
    }
  }

  // ---------- recovery_map ----------

  predicate PeerOk(f: Formats, roster: Roster, p: Peer) {
    && p.cluster == roster.cluster && p.controlPlane && !p.routes && f.overlay(p.vpn)
    && f.key(p.wireguard) && f.key(p.identity)
    && p.endpoints != [] && forall i :: 0 <= i < |p.endpoints| ==>
      p.endpoints[i].nodeId == p.nodeId && f.direct(p.endpoints[i].addr)
  }

  ghost predicate Distinct(peers: seq<Peer>) {
    forall a, b, k :: 0 <= a < b < |peers| ==> Get(peers[a], k) != Get(peers[b], k)
  }

  function Ids(peers: seq<Peer>): set<string> { set p | p in peers :: p.nodeId }

  /** The part of the checks that concerns the roster alone. */
  ghost predicate RosterOk(f: Formats, roster: Roster) {
    && roster.schema == 1 && 2 <= |roster.peers| <= 9 && LifecycleValid(roster)
    && roster.hosts.Values == Ids(roster.peers) && |roster.hosts| == |roster.peers|
    && Distinct(roster.peers) && forall p :: p in roster.peers ==> PeerOk(f, roster, p)
  }

  predicate Bound(state: State, p: Peer) {
    && state.registered.Some?
    && p.nodeId == state.registered.value.nodeId == state.nodeId
    && p.wireguard == state.registered.value.wireguard == state.wireguard
    && p.identity == state.registered.value.identity == state.identity
  }

  /** The part that binds this host's agent to its roster entry. */
  ghost predicate HostOk(state: State, roster: Roster, node: string) {
    && state.registered.Some? && state.registered.value.cluster == roster.cluster
    && node in roster.hosts && !IsStopped(roster, node)
    && exists p :: p in roster.peers && p.nodeId == roster.hosts[node] && Bound(state, p)
  }

  function Endpoints(state: State): seq<string> {
    if state.cache.endpoints.Some? then state.cache.endpoints.value
    else if state.endpoints.Some? then state.endpoints.value else []
  }

  function Desired(state: State, roster: Roster, node: string): Cache
    requires LifecycleValid(roster) && node in roster.hosts
  {
    Cache(Some(roster.cluster), Some(Without(Without(roster.peers, StoppedIds(roster)), {roster.hosts[node]})),
          Some(Endpoints(state)), Some(state.updatedAt))
  }

  /** Adds one peer's five values to those seen, unless one of them was seen before. */
  method SeeAll(p: Peer, before: map<Field, set<string>>) returns (ok: bool, seen: map<Field, set<string>>)
    requires forall k :: k in before
    ensures forall k :: k in seen
    ensures ok <==> forall k :: Get(p, k) !in before[k]
    ensures ok ==> forall k :: seen[k] == before[k] + {Get(p, k)}
  {
    seen := before;
    for i := 0 to |FIELDS|
      invariant forall k :: k in seen
      invariant forall j :: 0 <= j < i ==>
                  Get(p, FIELDS[j]) !in before[FIELDS[j]] && seen[FIELDS[j]] == before[FIELDS[j]] + {Get(p, FIELDS[j])}
      invariant forall j :: i <= j < |FIELDS| ==> seen[FIELDS[j]] == before[FIELDS[j]]
    {
      var k := FIELDS[i];
      if Get(p, k) in seen[k] {
        ok := false;
        return;
      }
      seen := seen[k := seen[k] + {Get(p, k)}];
    }
    ok := true;
    forall k: Field
      ensures Get(p, k) !in before[k] && seen[k] == before[k] + {Get(p, k)}
    {
      Listed(k);
    }
  }

  lemma Listed(k: Field)
    ensures exists j :: 0 <= j < |FIELDS| && FIELDS[j] == k
  {
    assert FIELDS[0] == Hostname && FIELDS[1] == NodeId && FIELDS[2] == Vpn && FIELDS[3] == Wireguard
      && FIELDS[4] == Identity;
  }

  method EndpointsOk(f: Formats, p: Peer) returns (ok: bool)
    ensures ok <==>
              p.endpoints != [] && forall i :: 0 <= i < |p.endpoints| ==>
                p.endpoints[i].nodeId == p.nodeId && f.direct(p.endpoints[i].addr)
  {
    if p.endpoints == [] {
      return false;
    }
    for i := 0 to |p.endpoints|
      invariant forall j :: 0 <= j < i ==> p.endpoints[j].nodeId == p.nodeId && f.direct(p.endpoints[j].addr)
    {
      if !(p.endpoints[i].nodeId == p.nodeId && f.direct(p.endpoints[i].addr)) {
        return false;
      }
    }
    ok := true;
  }

  /** The loop over the roster's peers: all valid, no value shared, and the entry bound to this host. */
  method CheckPeers(f: Formats, roster: Roster, id: string) returns (ok: bool, local: Option<Peer>)
    ensures ok <==> Distinct(roster.peers) && forall p :: p in roster.peers ==> PeerOk(f, roster, p)
    ensures ok ==> (local.None? ==> forall p :: p in roster.peers ==> p.nodeId != id)
    ensures ok ==> (local.Some? ==> local.value in roster.peers && local.value.nodeId == id)
  {
    var peers := roster.peers;
    var seen: map<Field, set<string>> := map[Hostname := {}, NodeId := {}, Vpn := {}, Wireguard := {}, Identity := {}];
    NothingSeen(seen, peers);
    local := None;
    for i := 0 to |peers|
      invariant Seen(seen, peers[..i])
      invariant forall j :: 0 <= j < i ==> PeerOk(f, roster, peers[j])
      invariant local.None? ==> forall j :: 0 <= j < i ==> peers[j].nodeId != id
      invariant local.Some? ==> local.value in peers && local.value.nodeId == id
    {
      var p := peers[i];
      assert p in peers && peers[..i + 1] == peers[..i] + [p];
      if !(p.cluster == roster.cluster && p.controlPlane && !p.routes && f.overlay(p.vpn)) {
        return false, None;
      }
      var unseen, next := SeeAll(p, seen);
      if unseen {
        SeenGrows(seen, next, peers[..i], p);
      } else {
        SeenTwice(seen, peers, i);
        return false, None;
      }
      if !(f.key(p.wireguard) && f.key(p.identity)) {
        return false, None;
      }
      var reachable := EndpointsOk(f, p);
      if !reachable {
        return false, None;
      }
      seen := next;
      if p.nodeId == id {
        local := Some(p);
      }
    }
    assert peers[..|peers|] == peers;
    ok := true;
  }

  /** The sets hold exactly the values of the peers passed, and these share none. */
  ghost predicate Seen(seen: map<Field, set<string>>, passed: seq<Peer>) {
    && Distinct(passed) && (forall k :: k in seen)
    && forall k, v :: v in seen[k] <==> exists q :: q in passed && Get(q, k) == v
  }

  lemma NothingSeen(seen: map<Field, set<string>>, peers: seq<Peer>)
    requires seen == map[Hostname := {}, NodeId := {}, Vpn := {}, Wireguard := {}, Identity := {}]
    ensures Seen(seen, peers[..0])
  {
    forall k: Field ensures k in seen && seen[k] == {} { Listed(k); }
  }

  lemma SeenTwice(seen: map<Field, set<string>>, peers: seq<Peer>, i: nat)
    requires i < |peers| && Seen(seen, peers[..i]) && exists k :: Get(peers[i], k) in seen[k]
    ensures !Distinct(peers)
  {
    var k :| Get(peers[i], k) in seen[k];
    var q :| q in peers[..i] && Get(q, k) == Get(peers[i], k);
    var j :| 0 <= j < i && peers[j] == q;
    assert Get(peers[j], k) == Get(peers[i], k);
  }

  lemma SeenGrows(seen: map<Field, set<string>>, next: map<Field, set<string>>, passed: seq<Peer>, p: Peer)
    requires Seen(seen, passed) && (forall k :: k in next)
    requires forall k :: Get(p, k) !in seen[k] && next[k] == seen[k] + {Get(p, k)}
    ensures Seen(next, passed + [p])
  {
    var all := passed + [p];
    assert forall q :: q in all <==> q in passed || q == p;
    forall a, b, k | 0 <= a < b < |all|
      ensures Get(all[a], k) != Get(all[b], k)
    {
      if b == |passed| {
        assert all[a] in passed;
        assert Get(all[a], k) in seen[k];
      }
    }
  }

  /** `recovery_map`. */
  method RecoveryMap(f: Formats, state: State, roster: Roster, node: string) returns (r: Result<Cache>)
    ensures r.Accepted? <==> RosterOk(f, roster) && HostOk(state, roster, node)
    ensures r.Accepted? ==> r.value == Desired(state, roster, node)
  {
    if !(roster.schema == 1 && 2 <= |roster.peers| <= 9) {
      return Refused;
    }
    if state.registered.None? || roster.cluster != state.registered.value.cluster {
      return Refused;
    }
    if !(roster.hosts.Values == Ids(roster.peers) && |roster.hosts| == |roster.peers|) {
      return Refused;
    }
    var stopped := StoppedHosts(roster);
    if node !in roster.hosts || stopped.Refused? || node in stopped.value {
      return Refused;
    }
    var ok, local := CheckPeers(f, roster, roster.hosts[node]);
    if !ok || local.None? {
      return Refused;
    }
    if !Bound(state, local.value) {
      OneLocal(roster, node, local.value);
      return Refused;
    }
    r := Accepted(Cache(Some(roster.cluster), Some(Without(ActivePeers(roster).value, {local.value.nodeId})),
                        Some(Endpoints(state)), Some(state.updatedAt)));
  }

  lemma OneLocal(roster: Roster, node: string, local: Peer)
    requires Distinct(roster.peers) && node in roster.hosts && local in roster.peers
             && local.nodeId == roster.hosts[node]
    ensures forall p :: p in roster.peers && p.nodeId == roster.hosts[node] ==> p == local
  {
    var a :| 0 <= a < |roster.peers| && roster.peers[a] == local;
    forall p | p in roster.peers && p.nodeId == roster.hosts[node]
      ensures p == local
    {
      var b :| 0 <= b < |roster.peers| && roster.peers[b] == p;
      assert Get(roster.peers[a], NodeId) == Get(roster.peers[b], NodeId);
    }
  }

  // ---------- reconcile ----------

  function Content(cache: Cache): Cache { cache.(generatedAt := None) }

  ghost predicate Approved(f: Formats, roster: Roster, state: State, node: string) {
    RosterOk(f, roster) && HostOk(state, roster, node)
  }

  /** The state holds the recovery map the roster gives this host. */
  predicate Settled(roster: Roster, state: State, node: string) {
    LifecycleValid(roster) && node in roster.hosts && Content(state.cache) == Content(Desired(state, roster, node))
  }

  /** The state one successful run leaves. */
  function Reconciled(roster: Roster, state: State, node: string, now: int): State
    requires LifecycleValid(roster) && node in roster.hosts
  {
    if Settled(roster, state, node) then state
    else
      state.(cache := Desired(state, roster, node), updatedAt := if now > state.updatedAt then now else state.updatedAt)
  }

  class Agent {
    var state: State

    constructor (initial: State)
      ensures state == initial
    {
      state := initial;
    }

    /** `reconcile`; `meanwhile` is what the agent itself may have written before the final comparison. */
    method Reconcile(f: Formats, roster: Roster, node: string, now: int, check: bool, meanwhile: Option<State>)
      returns (r: Result<(bool, nat)>)
      modifies this
      ensures !Approved(f, roster, old(state), node) ==> r.Refused? && state == old(state)
      ensures Approved(f, roster, old(state), node) && (check || Settled(roster, old(state), node)) ==>
                r.Accepted? && !r.value.0 && state == old(state)
      ensures Approved(f, roster, old(state), node) && !check && !Settled(roster, old(state), node) ==>
                if meanwhile.Some? && meanwhile.value != old(state)
                then r.Refused? && state == meanwhile.value
                else r.Accepted? && r.value.0 && state == Reconciled(roster, old(state), node, now)
      ensures r.Accepted? ==> r.value.1 == |Desired(old(state), roster, node).peers.value|
    {
      var original := state;
      var desired := RecoveryMap(f, original, roster, node);
      if desired.Refused? {
        return Refused;
      }
      var changed := Content(original.cache) != Content(desired.value);
      if changed && !check {
        var replacement := original.(cache := desired.value);
        if now > original.updatedAt {
          replacement := replacement.(updatedAt := now);
        }
        if meanwhile.Some? {
          state := meanwhile.value;
        }
        if state != original {
          return Refused;
        }
        state := replacement;
      }
      r := Accepted((changed && !check, |desired.value.peers.value|));
    }
  }

  /** A second run finds nothing to change, and time does not move backwards. */
  lemma ReconcilingSettles(f: Formats, roster: Roster, state: State, node: string, now: int)
    requires Approved(f, roster, state, node)
    ensures var s := Reconciled(roster, state, node, now);
            && Settled(roster, s, node) && s.updatedAt >= state.updatedAt && Approved(f, roster, s, node)
            && forall later :: Reconciled(roster, s, node, later) == s
  {
    var s := Reconciled(roster, state, node, now);
    var p :| p in roster.peers && p.nodeId == roster.hosts[node] && Bound(state, p);
    assert Bound(s, p);
  }

  // ---------- what the hosts' maps say together ----------

  lemma {:induction false} ValuesAtMostKeys<K, V>(m: map<K, V>)
    ensures |m.Values| <= |m.Keys|
    decreases |m|
  {
    if m.Keys != {} {
      var k :| k in m.Keys;
      var rest := m - {k};
      assert rest.Keys == m.Keys - {k};
      ValuesAtMostKeys(rest);
      forall v | v in m.Values
        ensures v in rest.Values + {m[k]}
      {
        var x :| x in m && m[x] == v;
        assert x != k ==> x in rest && rest[x] == v;
      }
      SubsetSize(m.Values, rest.Values + {m[k]});
    } else {
      assert m.Values == {};
    }
  }

  /** As many values as keys means no two keys share a value. */
  lemma FullValuesInject<K, V>(m: map<K, V>, a: K, b: K)
    requires |m.Values| == |m| && a in m && b in m && m[a] == m[b]
    ensures a == b
  {
    if a != b {
      var rest := m - {a};
      assert b in rest && rest.Keys == m.Keys - {a};
      forall v | v in m.Values
        ensures v in rest.Values
      {
        var x :| x in m && m[x] == v;
        assert x != a ==> x in rest && rest[x] == v;
        assert rest[b] == m[b];
      }
      SubsetSize(m.Values, rest.Values);
      ValuesAtMostKeys(rest);
    }
  }

  lemma {:induction false} DistinctIds(peers: seq<Peer>)
    requires Distinct(peers)
    ensures |Ids(peers)| == |peers|
  {
    if peers != [] {
      var rest := peers[1..];
      DistinctIds(rest);
      forall j | 0 <= j < |rest|
        ensures rest[j].nodeId != peers[0].nodeId
      {
        assert Get(peers[0], NodeId) != Get(peers[j + 1], NodeId);
      }
      assert forall p :: p in peers <==> p == peers[0] || p in rest;
      assert Ids(peers) == Ids(rest) + {peers[0].nodeId};
    } else {
      assert Ids(peers) == {};
    }
  }

  /** In an accepted roster, different hosts are bound to different nodes. */
  lemma HostsAreDistinct(f: Formats, roster: Roster, a: string, b: string)
    requires RosterOk(f, roster) && a in roster.hosts && b in roster.hosts && a != b
    ensures roster.hosts[a] != roster.hosts[b]
  {
    DistinctIds(roster.peers);
    if roster.hosts[a] == roster.hosts[b] {
      FullValuesInject(roster.hosts, a, b);
    }
  }

  ghost predicate Lists(state: State, id: string) {
    state.cache.peers.Some? && exists p :: p in state.cache.peers.value && p.nodeId == id
  }

  /**
   A settled host lists exactly the other hosts that are not stopped: every other active host, no stopped host,
   never itself.
   */
  lemma SettledListsExactly(f: Formats, roster: Roster, state: State, a: string, b: string)
    requires RosterOk(f, roster) && Settled(roster, state, a) && a in roster.hosts && b in roster.hosts
    ensures Lists(state, roster.hosts[b]) <==> a != b && !IsStopped(roster, b)
  {
    var active := Without(roster.peers, StoppedIds(roster));
    var id := roster.hosts[b];
    assert state.cache.peers == Some(Without(active, {roster.hosts[a]}));
    forall p
      ensures p in state.cache.peers.value <==>
                p in roster.peers && p.nodeId !in StoppedIds(roster) && p.nodeId != roster.hosts[a]
    {
      WithoutIsExact(roster.peers, StoppedIds(roster), p);
      WithoutIsExact(active, {roster.hosts[a]}, p);
    }
    StoppedById(f, roster, b);
    assert id in roster.hosts.Values;
    assert id in Ids(roster.peers);
    var p :| p in roster.peers && p.nodeId == id;
    if a != b { HostsAreDistinct(f, roster, a, b); }
  }

  lemma StoppedById(f: Formats, roster: Roster, b: string)
    requires RosterOk(f, roster) && b in roster.hosts
    ensures roster.hosts[b] in StoppedIds(roster) <==> IsStopped(roster, b)
  {
    if roster.hosts[b] in StoppedIds(roster) {
      var host :| host in roster.states && roster.states[host].Stopped? && roster.hosts[host] == roster.hosts[b];
      if host != b { HostsAreDistinct(f, roster, host, b); }
    }
  }

  // ---------- any schedule of runs on all hosts ----------

  datatype Run = Run(host: string, now: int, check: bool)

  ghost function AfterRun(f: Formats, roster: Roster, fleet: map<string, State>, run: Run): map<string, State> {
    if run.host in fleet && !run.check && Approved(f, roster, fleet[run.host], run.host)
    then fleet[run.host := Reconciled(roster, fleet[run.host], run.host, run.now)] else fleet
  }

  ghost function AfterRuns(f: Formats, roster: Roster, fleet: map<string, State>, runs: seq<Run>): map<string, State>
    decreases |runs|
  {
    if runs == [] then fleet else AfterRuns(f, roster, AfterRun(f, roster, fleet, runs[0]), runs[1..])
  }

  ghost predicate HasRun(runs: seq<Run>, host: string) {
    exists i :: 0 <= i < |runs| && runs[i].host == host && !runs[i].check
  }

  /** Over a whole schedule an approved host stays approved, settles at its first real run and stays settled. */
  lemma {:induction false} HostSettles(f: Formats, roster: Roster, fleet: map<string, State>, runs: seq<Run>,
                                       host: string)
    requires host in fleet && Approved(f, roster, fleet[host], host)
    ensures var later := AfterRuns(f, roster, fleet, runs);
            && host in later && Approved(f, roster, later[host], host) && later[host].updatedAt >= fleet[host].updatedAt
            && (HasRun(runs, host) || Settled(roster, fleet[host], host) ==> Settled(roster, later[host], host))
    decreases |runs|
  {
    if runs != [] {
      var next := AfterRun(f, roster, fleet, runs[0]);
      ReconcilingSettles(f, roster, fleet[host], host, runs[0].now);
      HostSettles(f, roster, next, runs[1..], host);
      if HasRun(runs, host) && !(runs[0].host == host && !runs[0].check) {
        var i :| 0 <= i < |runs| && runs[i].host == host && !runs[i].check;
        assert runs[1..][i - 1] == runs[i];
      }
    }
  }

  /**
   However the runs of the hosts interleave and repeat: once each of two active hosts has run, each is in the
   other's recovery map, and neither map holds a stopped host or its own host.
   */
  lemma ActiveHostsFindEachOther(f: Formats, roster: Roster, fleet: map<string, State>, runs: seq<Run>, a: string,
                                 b: string)
    requires a in fleet && b in fleet && a != b && HasRun(runs, a) && HasRun(runs, b)
    requires Approved(f, roster, fleet[a], a) && Approved(f, roster, fleet[b], b)
    ensures var later := AfterRuns(f, roster, fleet, runs);
            && a in later && b in later
            && Lists(later[a], roster.hosts[b]) && Lists(later[b], roster.hosts[a])
            && !Lists(later[a], roster.hosts[a]) && !Lists(later[b], roster.hosts[b])
            && forall host :: host in roster.hosts && IsStopped(roster, host) ==>
                 !Lists(later[a], roster.hosts[host]) && !Lists(later[b], roster.hosts[host])
  {
    var later := AfterRuns(f, roster, fleet, runs);
    HostSettles(f, roster, fleet, runs, a);
    HostSettles(f, roster, fleet, runs, b);
    SettledListsExactly(f, roster, later[a], a, b);
    SettledListsExactly(f, roster, later[b], b, a);
    SettledListsExactly(f, roster, later[a], a, a);
    SettledListsExactly(f, roster, later[b], b, b);
    forall host | host in roster.hosts && IsStopped(roster, host)
      ensures !Lists(later[a], roster.hosts[host]) && !Lists(later[b], roster.hosts[host])
    {
      SettledListsExactly(f, roster, later[a], a, host);
      SettledListsExactly(f, roster, later[b], b, host);
    }
  }
}
