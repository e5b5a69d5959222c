/**
 Replacing one voter of the etcd cluster behind the database: add a learner, promote it, retire the old
 voter, publish. Every action reads the membership, checks it against the reviewed topology and makes at
 most one change; any call to etcd may fail, or succeed and be reported as failed.
 */
module DcsMembership {
  import opened DcsCommit
  import opened Finite
  import opened Wrappers

  type Url = string

  datatype Member = Member(id: nat, name: string, peers: seq<Url>, learner: bool)

  /** The reviewed replacement: `leaving` gives way to `joining`, everyone else stays. */
  datatype Topology = Topology(staying: map<string, Url>, leaving: string, leavingUrl: Url, joining: string,
                               joiningUrl: Url) {
    function Before(): map<string, Url> { staying[leaving := leavingUrl] }
    function After(): map<string, Url> { staying[joining := joiningUrl] }
  }

  ghost predicate Injective(m: map<string, Url>) {
    forall a, b :: a in m && b in m && m[a] == m[b] ==> a == b
  }

  /** Names and peer URLs are distinct, and no voter is nameless. */
  ghost predicate Reviewed(t: Topology) {
    && t.leaving !in t.staying && t.joining !in t.staying && t.leaving != t.joining
    && "" !in t.staying && t.leaving != "" && t.joining != ""
    && Injective(t.staying[t.leaving := t.leavingUrl][t.joining := t.joiningUrl])
  }

  // ---------- reading the membership ----------

  /** Every member has one peer URL and no two share it. */
  ghost predicate SinglePeers(ms: seq<Member>) {
    && (forall i :: 0 <= i < |ms| ==> |ms[i].peers| == 1)
    && (forall i, j :: 0 <= i < j < |ms| ==> ms[i].peers != ms[j].peers)
  }

  ghost predicate DistinctIds(ms: seq<Member>) {
    forall i, j :: 0 <= i < j < |ms| ==> ms[i].id != ms[j].id
  }

  ghost predicate IndexedBy(ms: seq<Member>, m: map<Url, Member>) {
    && (forall u :: u in m ==> m[u] in ms && m[u].peers == [u])
    && (forall i :: 0 <= i < |ms| ==> |ms[i].peers| == 1 && ms[i].peers[0] in m && m[ms[i].peers[0]] == ms[i])
  }

  /** The members by peer URL, refused unless each has one of its own. */
  function Index(ms: seq<Member>): Result<map<Url, Member>> {
    if ms == [] then Accepted(map[])
    else
      var rest, last := Index(ms[..|ms| - 1]), ms[|ms| - 1];
      if rest.Refused? || |last.peers| != 1 || last.peers[0] in rest.value then Refused
      else Accepted(rest.value[last.peers[0] := last])
  }

  lemma {:induction false} IndexIsExact(ms: seq<Member>)
    ensures Index(ms).Accepted? <==> SinglePeers(ms)
    ensures Index(ms).Accepted? ==> IndexedBy(ms, Index(ms).value)
  {
    if ms != [] {
      var n := |ms| - 1;
      IndexIsExact(ms[..n]);
      assert ms == ms[..n] + [ms[n]];
      if Index(ms[..n]).Refused? {
        FewerPeers(ms, n);
      } else if |ms[n].peers| != 1 || ms[n].peers[0] in Index(ms[..n]).value {
        Unindexable(ms, n, Index(ms[..n]).value);
      } else {
        IndexGrows(ms[..n], Index(ms[..n]).value, ms[n]);
      }
    }
  }

  lemma FewerPeers(ms: seq<Member>, n: nat)
    requires n <= |ms|
    ensures SinglePeers(ms) ==> SinglePeers(ms[..n])
  {
  }

  /** `members_by_peer`: refuses exactly the lists that are not one peer URL each. */
  method MembersByPeer(ms: seq<Member>) returns (r: Result<map<Url, Member>>)
    ensures r == Index(ms)
    ensures r.Accepted? <==> SinglePeers(ms)
    ensures r.Accepted? ==> IndexedBy(ms, r.value)
  {
    var result: map<Url, Member> := map[];
    for i := 0 to |ms|
      invariant Index(ms[..i]) == Accepted(result)
    {
      var peers := ms[i].peers;
      assert ms[..i + 1][..i] == ms[..i];
      if |peers| != 1 || peers[0] in result {
        IndexIsExact(ms[..i]);
        Unindexable(ms, i, result);
        IndexIsExact(ms);
        return Refused;
      }
      result := result[peers[0] := ms[i]];
    }
    assert ms[..|ms|] == ms;
    IndexIsExact(ms);
    r := Accepted(result);
  }

  lemma Unindexable(ms: seq<Member>, i: nat, m: map<Url, Member>)
    requires i < |ms| && IndexedBy(ms[..i], m) && (|ms[i].peers| != 1 || ms[i].peers[0] in m)
    ensures !SinglePeers(ms)
  {
    if |ms[i].peers| == 1 {
      var k :| 0 <= k < i && ms[..i][k] == m[ms[i].peers[0]];
      assert ms[k].peers == ms[i].peers;
    }
  }

  lemma IndexGrows(passed: seq<Member>, m: map<Url, Member>, member: Member)
    requires IndexedBy(passed, m) && SinglePeers(passed) && |member.peers| == 1 && member.peers[0] !in m
    ensures IndexedBy(passed + [member], m[member.peers[0] := member]) && SinglePeers(passed + [member])
  {
    assert member.peers == [member.peers[0]];
    forall k | 0 <= k < |passed|
      ensures passed[k].peers != member.peers
    {
      assert passed[k].peers[0] in m;
    }
  }

  /** What the checks can see of a member. */
  datatype Entry = Entry(name: string, peers: seq<Url>, learner: bool)

  function Seen(m: Member): Entry { Entry(m.name, m.peers, m.learner) }

  function Entries(ms: seq<Member>): set<Entry> {
    set i | 0 <= i < |ms| :: Seen(ms[i])
  }

  ghost function Voting(m: map<string, Url>): set<Entry> {
    set n | n in m :: Entry(n, [m[n]], false)
  }

  // ---------- the four memberships ----------

  datatype Phase = OldVoters | WithLearner | FourVoters | NewVoters

  ghost predicate At(t: Topology, phase: Phase, ms: seq<Member>) {
    && SinglePeers(ms) && DistinctIds(ms)
    && match phase {
         case OldVoters => Entries(ms) == Voting(t.Before())
         case WithLearner =>
           || Entries(ms) == Voting(t.Before()) + {Entry("", [t.joiningUrl], true)}
           || Entries(ms) == Voting(t.Before()) + {Entry(t.joining, [t.joiningUrl], true)}
         case FourVoters => Entries(ms) == Voting(t.Before()) + {Entry(t.joining, [t.joiningUrl], false)}
         case NewVoters => Entries(ms) == Voting(t.After())
       }
  }

  ghost predicate Known(t: Topology, ms: seq<Member>) { exists phase :: At(t, phase, ms) }

  /** One permitted change: none, the learner joining, or one step of the replacement. */
  ghost predicate Moves(t: Topology, ms: seq<Member>, ms': seq<Member>) {
    || ms' == ms
    || (At(t, OldVoters, ms) && At(t, WithLearner, ms'))
    || (At(t, WithLearner, ms) && At(t, WithLearner, ms'))
    || (At(t, WithLearner, ms) && At(t, FourVoters, ms'))
    || (At(t, FourVoters, ms) && At(t, NewVoters, ms'))
  }

  // ---------- what etcd does ----------

  /** A call took effect, took effect but looked failed, or did nothing. */
  datatype Call = Done | Lost | Failed

  predicate Reported(c: Call) { c == Done }
  predicate Effective(c: Call) { c != Failed }

  function IndexById(ms: seq<Member>, id: nat): (i: nat)
    ensures i <= |ms|
    ensures i < |ms| ==> ms[i].id == id
    ensures forall j :: 0 <= j < i ==> ms[j].id != id
  {
    if ms == [] then 0 else if ms[0].id == id then 0 else 1 + IndexById(ms[1..], id)
  }

  function Promoted(ms: seq<Member>, id: nat): seq<Member> {
    var i := IndexById(ms, id);
    if i < |ms| then ms[i := ms[i].(learner := false)] else ms
  }

  function Removed(ms: seq<Member>, id: nat): seq<Member> {
    var i := IndexById(ms, id);
    if i < |ms| then Dropped(ms, i) else ms
  }

  lemma EntriesAppend(ms: seq<Member>, m: Member)
    ensures Entries(ms + [m]) == Entries(ms) + {Seen(m)}
  {
    var all := ms + [m];
    forall e
      ensures e in Entries(all) <==> e in Entries(ms) + {Seen(m)}
    {
      if e in Entries(ms) {
        var i :| 0 <= i < |ms| && Seen(ms[i]) == e;
        assert all[i] == ms[i];
      }
      assert all[|ms|] == m;
    }
  }

  lemma EntriesUpdate(ms: seq<Member>, i: nat, m: Member)
    requires i < |ms| && SinglePeers(ms) && m.peers == ms[i].peers
    ensures Entries(ms[i := m]) == Entries(ms) - {Seen(ms[i])} + {Seen(m)}
    ensures SinglePeers(ms[i := m])
  {
    var all := ms[i := m];
    forall e
      ensures e in Entries(all) <==> e in Entries(ms) - {Seen(ms[i])} + {Seen(m)}
    {
      if e in Entries(ms) && e != Seen(ms[i]) {
        var k :| 0 <= k < |ms| && Seen(ms[k]) == e;
        assert all[k] == ms[k];
      }
      assert all[i] == m;
      if e in Entries(all) && e != Seen(m) {
        var k :| 0 <= k < |all| && Seen(all[k]) == e;
        assert all[k] == ms[k] && ms[k].peers != ms[i].peers;
      }
    }
  }

  function Dropped(ms: seq<Member>, i: nat): (rest: seq<Member>)
    requires i < |ms|
    ensures |rest| == |ms| - 1
    ensures forall k :: 0 <= k < |rest| ==> rest[k] == ms[if k < i then k else k + 1]
  {
    ms[..i] + ms[i + 1..]
  }

  lemma DroppedStaysDistinct(ms: seq<Member>, i: nat)
    requires i < |ms| && SinglePeers(ms) && DistinctIds(ms)
    ensures SinglePeers(Dropped(ms, i)) && DistinctIds(Dropped(ms, i))
  {
  }

  lemma EntriesRemove(ms: seq<Member>, i: nat)
    requires i < |ms| && SinglePeers(ms)
    ensures Entries(Dropped(ms, i)) == Entries(ms) - {Seen(ms[i])}
  {
    var rest := Dropped(ms, i);
    forall e
      ensures e in Entries(rest) <==> e in Entries(ms) - {Seen(ms[i])}
    {
      if e in Entries(ms) && e != Seen(ms[i]) {
        var k :| 0 <= k < |ms| && Seen(ms[k]) == e;
        assert rest[if k < i then k else k - 1] == ms[k];
      }
      if e in Entries(rest) {
        var k :| 0 <= k < |rest| && Seen(rest[k]) == e;
        var x := if k < i then k else k + 1;
        assert ms[x].peers != ms[i].peers;
      }
    }
  }

  // ---------- the checks against the reviewed topology ----------

  function Urls(m: map<string, Url>): set<Url> { set n | n in m :: m[n] }

  ghost function PeersIn(es: set<Entry>): set<Url> {
    set e | e in es && |e.peers| == 1 :: e.peers[0]
  }

  /** The peers seen are those of the entries. */
  lemma PeersOfEntries(ms: seq<Member>, m: map<Url, Member>)
    requires IndexedBy(ms, m)
    ensures m.Keys == PeersIn(Entries(ms))
    ensures forall u :: u in m ==> Seen(m[u]) in Entries(ms) && m[u].peers == [u]
  {
    forall u
      ensures u in m <==> u in PeersIn(Entries(ms))
      ensures u in m ==> Seen(m[u]) in Entries(ms) && m[u].peers == [u]
    {
      if u in m {
        var i :| 0 <= i < |ms| && ms[i] == m[u];
        assert Seen(ms[i]) in Entries(ms);
        assert Seen(ms[i]).peers[0] == u;
      }
      if u in PeersIn(Entries(ms)) {
        var e :| e in Entries(ms) && |e.peers| == 1 && e.peers[0] == u;
        var i :| 0 <= i < |ms| && Seen(ms[i]) == e;
        assert ms[i].peers[0] in m;
      }
    }
  }

  lemma PeersInVoting(m: map<string, Url>)
    ensures PeersIn(Voting(m)) == Urls(m)
  {
    forall u
      ensures u in PeersIn(Voting(m)) <==> u in Urls(m)
    {
      if u in Urls(m) {
        var n :| n in m && m[n] == u;
        assert Entry(n, [m[n]], false) in Voting(m);
        assert Entry(n, [m[n]], false).peers[0] == u;
      }
    }
  }

  lemma PeersInAdd(es: set<Entry>, e: Entry, u: Url)
    requires e.peers == [u]
    ensures PeersIn(es + {e}) == PeersIn(es) + {u}
  {
    forall x
      ensures x in PeersIn(es + {e}) <==> x in PeersIn(es) + {u}
    {
      if x == u {
        assert e in es + {e} && e.peers[0] == u;
      } else if x in PeersIn(es) {
        var k :| k in es && |k.peers| == 1 && k.peers[0] == x;
        assert k in es + {e};
      }
    }
  }

  /** A phase fixes what is seen at every URL. */
  lemma SeenAt(t: Topology, phase: Phase, ms: seq<Member>, m: map<Url, Member>)
    requires Reviewed(t) && At(t, phase, ms) && IndexedBy(ms, m)
    ensures phase == OldVoters ==> m.Keys == Urls(t.Before())
    ensures phase == WithLearner || phase == FourVoters ==> m.Keys == Urls(t.Before()) + {t.joiningUrl}
    ensures phase == NewVoters ==> m.Keys == Urls(t.After())
    ensures phase == WithLearner ==> t.joiningUrl in m && m[t.joiningUrl].learner
    ensures phase == FourVoters ==> t.joiningUrl in m && !m[t.joiningUrl].learner && m[t.joiningUrl].name == t.joining
  {
    PeersOfEntries(ms, m);
    if phase == NewVoters {
      PeersInVoting(t.After());
    } else {
      PeersInVoting(t.Before());
      PeersInAdd(Voting(t.Before()), Entry("", [t.joiningUrl], true), t.joiningUrl);
      PeersInAdd(Voting(t.Before()), Entry(t.joining, [t.joiningUrl], true), t.joiningUrl);
      PeersInAdd(Voting(t.Before()), Entry(t.joining, [t.joiningUrl], false), t.joiningUrl);
      JoinerIsApart(t);
    }
  }

  /** The joining peer is not among the old ones, the leaving one not among the new. */
  lemma NotYet(t: Topology)
    requires Reviewed(t)
    ensures t.joiningUrl !in Urls(t.Before()) && t.leavingUrl !in Urls(t.After())
    ensures t.leavingUrl in Urls(t.Before()) && t.joiningUrl in Urls(t.After())
  {
    var all := t.staying[t.leaving := t.leavingUrl][t.joining := t.joiningUrl];
    assert t.leavingUrl == all[t.leaving] && t.joiningUrl == all[t.joining];
    forall n | n in t.Before()
      ensures t.Before()[n] != t.joiningUrl
    {
      assert n in all && all[n] == t.Before()[n];
    }
    forall n | n in t.After()
      ensures t.After()[n] != t.leavingUrl
    {
      assert n in all && all[n] == t.After()[n];
    }
    assert t.Before()[t.leaving] == t.leavingUrl && t.After()[t.joining] == t.joiningUrl;
  }

  predicate OldVotersNamed(t: Topology, m: map<Url, Member>) {
    forall n | n in t.Before() :: t.Before()[n] in m && m[t.Before()[n]].name == n
  }

  predicate NewVotersPresent(t: Topology, m: map<Url, Member>) {
    forall n | n in t.After() :: t.After()[n] in m && m[t.After()[n]].name == n && !m[t.After()[n]].learner
  }

  /** Exactly the reviewed voters, under their names. */
  predicate MayAdd(t: Topology, ms: seq<Member>) {
    var m := Index(ms);
    m.Accepted? && m.value.Keys == Urls(t.Before()) && OldVotersNamed(t, m.value)
  }

  /** Exactly the old peers and the joining one. */
  predicate BothPresent(t: Topology, ms: seq<Member>) {
    Index(ms).Accepted? && Index(ms).value.Keys == Urls(t.Before()) + {t.joiningUrl}
  }

  /** The learner to promote: the joining peer, when it has joined under its name. */
  function ToPromote(t: Topology, ms: seq<Member>): Option<Member> {
    if BothPresent(t, ms) then
      var x := Index(ms).value[t.joiningUrl];
      if x.name == t.joining && x.learner then Some(x) else None
    else None
  }

  /** The voter to retire: the leaving one, when every new voter votes. */
  function ToRetire(t: Topology, ms: seq<Member>): Option<Member> {
    if BothPresent(t, ms) && NewVotersPresent(t, Index(ms).value) && t.leavingUrl in Index(ms).value then
      var x := Index(ms).value[t.leavingUrl];
      if x.name == t.leaving && !x.learner then Some(x) else None
    else None
  }

  /** The new node starts and tells etcd its name. */
  function Joined(t: Topology, ms: seq<Member>): seq<Member> {
    var m := Index(ms);
    if m.Accepted? && t.joiningUrl in m.value && m.value[t.joiningUrl].learner then
      var i := IndexById(ms, m.value[t.joiningUrl].id);
      if i < |ms| then ms[i := ms[i].(name := t.joining)] else ms
    else ms
  }

  /** The peers listed under each name, a later member replacing an earlier one of the same name. */
  function LastPeers(ms: seq<Member>): map<string, seq<Url>> {
    if ms == [] then map[] else LastPeers(ms[..|ms| - 1])[ms[|ms| - 1].name := ms[|ms| - 1].peers]
  }

  predicate NamesCheck(t: Topology, ms: seq<Member>) {
    && LastPeers(ms) == (map n | n in t.After() :: [t.After()[n]])
    && forall i :: 0 <= i < |ms| ==> !ms[i].learner
  }

  // ---------- the actions ----------

  /** At one moment: the membership, the files of the authority, and whether the staged pair has ever replaced it. */
  datatype Moment = Moment(members: seq<Member>, files: Files, published: bool)

  /**
   One action of the tool with all the answers it gets, or the new node joining. `listed` and `relisted` say
   whether the member list could be read, `healthy` and `quorum` what the health checks say, and `answers` what a
   commit meets in the file system.
   */
  datatype Action =
    | Add(id: nat, listed: bool, healthy: bool, add: Call, relisted: bool)
    | Join
    | Promote(listed: bool, promote: Call, relisted: bool, healthy: bool)
    | Retire(listed: bool, healthy: bool, remove: Call, relisted: bool, quorum: bool)
    | Publish(listed: bool, quorum: bool, answers: Answers)

  /** etcd never assigns an id that is in use. */
  predicate Unused(ms: seq<Member>, id: nat) { forall i :: 0 <= i < |ms| ==> ms[i].id != id }

  /** What an action leaves, in whatever membership it finds. */
  function Next(t: Topology, s: Moment, action: Action): Moment {
    match action
    case Add(id, listed, healthy, add, _) =>
      if listed && MayAdd(t, s.members) && healthy && Effective(add) && Unused(s.members, id)
      then s.(members := s.members + [Member(id, "", [t.joiningUrl], true)]) else s
    case Join => s.(members := Joined(t, s.members))
    case Promote(listed, promote, _, _) =>
      var x := ToPromote(t, s.members);
      if listed && x.Some? && Effective(promote) then s.(members := Promoted(s.members, x.value.id)) else s
    case Retire(listed, healthy, remove, _, _) =>
      var x := ToRetire(t, s.members);
      if listed && x.Some? && healthy && Effective(remove) then s.(members := Removed(s.members, x.value.id)) else s
    case Publish(listed, quorum, answers) =>
      if listed && NamesCheck(t, s.members) && quorum then
        var files := Left(s.files, OutcomeOf(s.files, answers));
        s.(files := files, published := s.published || (ReadyToCommit(s.files) && Replaced(s.files, files)))
      else s
  }

  /** The moment after a sequence of actions. */
  function After(t: Topology, s: Moment, actions: seq<Action>): Moment
    decreases |actions|
  {
    if actions == [] then s else After(t, Next(t, s, actions[0]), actions[1..])
  }

  class Cluster {
    var members: seq<Member>
    var files: Files
    var published: bool

    ghost function Now(): Moment
      reads this
    {
      Moment(members, files, published)
    }

    /** The starting point: the reviewed voters, nothing published. */
    constructor (t: Topology, voters: seq<Member>, staged: Files)
      requires At(t, OldVoters, voters)
      ensures Now() == Moment(voters, staged, false)
    {
      members, files, published := voters, staged, false;
    }

    /** Adds at most the reviewed learner, and only to the reviewed voters. */
    method AddLearner(t: Topology, id: nat, listed: bool, healthy: bool, add: Call, relisted: bool) returns (ok: bool)
      requires Reviewed(t)
      modifies this
      ensures Now() == Next(t, old(Now()), Add(id, listed, healthy, add, relisted))
      ensures Known(t, old(members)) && ok ==> At(t, WithLearner, members)
      ensures At(t, WithLearner, old(members)) && listed ==> ok
      ensures At(t, OldVoters, old(members)) && Unused(old(members), id) && listed && healthy && add == Done && relisted
              ==> ok
    {
      if Known(t, members) { AddMoves(t, members, id); }
      if !listed {
        return false;
      }
      var present := LearnerPresent(t);
      if present.Refused? {
        return false;
      }
      if !present.value {
        if !healthy {
          return false;
        }
        if Effective(add) && Unused(members, id) {
          members := members + [Member(id, "", [t.joiningUrl], true)];
        }
        if !Reported(add) || !relisted {
          return false;
        }
      }
      if Known(t, members) { JoinerSeen(t, members); }
      ok := LearnerRegistered(t);
    }

    /** The checks before an addition: whether the joining peer is there already, beside the named old voters. */
    method LearnerPresent(t: Topology) returns (r: Result<bool>)
      requires Reviewed(t)
      ensures r == Accepted(false) <==> MayAdd(t, members)
      ensures r == Accepted(true) <==> BothPresent(t, members) && OldVotersNamed(t, Index(members).value)
    {
      NotYet(t);
      var current := MembersByPeer(members);
      if current.Refused? {
        return Refused;
      }
      if current.value.Keys != Urls(t.Before()) && current.value.Keys != Urls(t.Before()) + {t.joiningUrl} {
        return Refused;
      }
      if !OldVotersNamed(t, current.value) {
        return Refused;
      }
      r := Accepted(t.joiningUrl in current.value);
    }

    method LearnerRegistered(t: Topology) returns (ok: bool)
      ensures ok <==> BothPresent(t, members) && Index(members).value[t.joiningUrl].learner
    {
      var current := MembersByPeer(members);
      ok := current.Accepted? && current.value.Keys == Urls(t.Before()) + {t.joiningUrl}
        && current.value[t.joiningUrl].learner;
    }

    /** Promotes at most the joined learner, and only beside exactly the reviewed peers. */
    method PromoteLearner(t: Topology, listed: bool, promote: Call, relisted: bool, healthy: bool) returns (ok: bool)
      requires Reviewed(t)
      modifies this
      ensures Now() == Next(t, old(Now()), Promote(listed, promote, relisted, healthy))
      ensures Known(t, old(members)) ==>
                (ok <==> listed && relisted && healthy && (|| At(t, FourVoters, old(members))
                                                           || (ToPromote(t, old(members)).Some? && promote == Done)))
    {
      if Known(t, members) {
        PromoteMoves(t, members);
        JoinerSeen(t, members);
      }
      if !listed {
        return false;
      }
      var learner := JoinedMember(t);
      if learner.None? {
        return false;
      }
      if learner.value.learner {
        if Effective(promote) {
          members := Promoted(members, learner.value.id);
        }
        if !Reported(promote) {
          return false;
        }
      }
      if !relisted {
        return false;
      }
      if Known(t, members) { JoinerSeen(t, members); }
      var voting := JoinerVotes(t);
      ok := voting && healthy;
    }

    /** The joining peer beside exactly the old ones, once it has joined under its name. */
    method JoinedMember(t: Topology) returns (r: Option<Member>)
      ensures r.Some? <==> BothPresent(t, members) && Index(members).value[t.joiningUrl].name == t.joining
      ensures r.Some? ==> r.value == Index(members).value[t.joiningUrl]
    {
      var current := MembersByPeer(members);
      if current.Refused? || current.value.Keys != Urls(t.Before()) + {t.joiningUrl} {
        return None;
      }
      var learner := current.value[t.joiningUrl];
      r := if learner.name == t.joining then Some(learner) else None;
    }

    method JoinerVotes(t: Topology) returns (ok: bool)
      ensures ok <==>
                Index(members).Accepted? && t.joiningUrl in Index(members).value
                  && !Index(members).value[t.joiningUrl].learner
    {
      var current := MembersByPeer(members);
      ok := current.Accepted? && t.joiningUrl in current.value && !current.value[t.joiningUrl].learner;
    }

    /** Removes at most the leaving voter, and only beside all new voters. */
    method RetireOldVoter(t: Topology, listed: bool, healthy: bool, remove: Call, relisted: bool, quorum: bool)
      returns (ok: bool)
      requires Reviewed(t)
      modifies this
      ensures Now() == Next(t, old(Now()), Retire(listed, healthy, remove, relisted, quorum))
      ensures Known(t, old(members)) ==>
                (ok <==> At(t, FourVoters, old(members)) && listed && healthy && remove == Done && relisted && quorum)
    {
      if Known(t, members) { RetireMoves(t, members); }
      if !listed {
        return false;
      }
      var leaver := Leaver(t, healthy);
      if leaver.None? {
        return false;
      }
      if Effective(remove) {
        members := Removed(members, leaver.value.id);
      }
      if !Reported(remove) || !relisted {
        return false;
      }
      ok := HealthyNewQuorum(t, quorum);
    }

    /** The checks before the removal: the voter to retire, when retiring is safe. */
    method Leaver(t: Topology, healthy: bool) returns (r: Option<Member>)
      requires Reviewed(t)
      ensures r == if healthy then ToRetire(t, members) else None
    {
      NotYet(t);
      var current := MembersByPeer(members);
      if current.Refused? || current.value.Keys != Urls(t.Before()) + {t.joiningUrl}
         || !NewVotersPresent(t, current.value) || !healthy {
        return None;
      }
      var leaver := current.value[t.leavingUrl];
      r := if leaver.name == t.leaving && !leaver.learner then Some(leaver) else None;
    }

    /** `healthy_new_quorum`: the peers last listed under each name are the new topology's, and nobody is a learner. */
    method HealthyNewQuorum(t: Topology, quorum: bool) returns (ok: bool)
      ensures ok <==> NamesCheck(t, members) && quorum
      ensures Reviewed(t) && Known(t, members) ==> (ok <==> At(t, NewVoters, members) && quorum)
    {
      var actual: map<string, seq<Url>> := map[];
      for i := 0 to |members|
        invariant actual == LastPeers(members[..i])
      {
        assert members[..i + 1][..i] == members[..i];
        actual := actual[members[i].name := members[i].peers];
      }
      assert members[..|members|] == members;
      var expected := map n | n in t.After() :: [t.After()[n]];
      var learners := exists i | 0 <= i < |members| :: members[i].learner;
      ok := actual == expected && !learners && quorum;
      if Reviewed(t) && Known(t, members) { KnownNamesCheck(t, members); }
    }

    /** The authority is published only over what the quorum check accepts. */
    method Commit(t: Topology, listed: bool, quorum: bool, answers: Answers) returns (ok: bool)
      modifies this
      ensures Now() == Next(t, old(Now()), Publish(listed, quorum, answers))
      ensures ok <==> listed && NamesCheck(t, members) && quorum && OutcomeOf(old(files), answers).Committed?
      ensures ok ==> published
    {
      if !listed {
        return false;
      }
      ok := HealthyNewQuorum(t, quorum);
      if ok {
        var authority := new Authority(files);
        var outcome := authority.Commit(answers);
        var replaced := ReadyToCommit(files) && Replaced(files, authority.files);
        files, published := authority.files, published || replaced;
        ok := outcome.Committed?;
      }
    }

    /** The tool's command dispatch, and the new node joining. */
    method Perform(t: Topology, action: Action) returns (ok: bool)
      requires Reviewed(t)
      modifies this
      ensures Now() == Next(t, old(Now()), action)
    {
      match action {
        case Add(id, listed, healthy, add, relisted) => ok := AddLearner(t, id, listed, healthy, add, relisted);
        case Join => members, ok := Joined(t, members), true;
        case Promote(listed, promote, relisted, healthy) => ok := PromoteLearner(t, listed, promote, relisted, healthy);
        case Retire(listed, healthy, remove, relisted, quorum) =>
          ok := RetireOldVoter(t, listed, healthy, remove, relisted, quorum);
        case Publish(listed, quorum, answers) => ok := Commit(t, listed, quorum, answers);
      }
    }

    /** Any number of commands, one after the other. */
    method Run(t: Topology, actions: seq<Action>)
      requires Reviewed(t)
      modifies this
      ensures Now() == After(t, old(Now()), actions)
    {
      for i := 0 to |actions|
        invariant After(t, old(Now()), actions) == After(t, Now(), actions[i..])
      {
        assert actions[i..][1..] == actions[i + 1..];
        var ok := Perform(t, actions[i]);
      }
    }
  }

  // ---------- lemmas behind the actions ----------

  lemma Identified(ms: seq<Member>, m: Member)
    requires m in ms && DistinctIds(ms)
    ensures IndexById(ms, m.id) < |ms| && ms[IndexById(ms, m.id)] == m
  {
    var k :| 0 <= k < |ms| && ms[k] == m;
    var i := IndexById(ms, m.id);
    assert i <= k && ms[i].id == ms[k].id;
  }

  lemma AppendedPeers(ms: seq<Member>, m: map<Url, Member>, added: Member)
    requires SinglePeers(ms) && DistinctIds(ms) && IndexedBy(ms, m) && |added.peers| == 1 && added.peers[0] !in m
    requires forall i :: 0 <= i < |ms| ==> ms[i].id != added.id
    ensures SinglePeers(ms + [added]) && DistinctIds(ms + [added])
  {
    forall i | 0 <= i < |ms|
      ensures ms[i].peers != added.peers
    {
      assert ms[i].peers[0] in m;
    }
  }

  lemma OldUnlessJoining(t: Topology)
    requires Reviewed(t)
    ensures Urls(t.After()) != Urls(t.Before()) && Urls(t.After()) != Urls(t.Before()) + {t.joiningUrl}
  {
    NotYet(t);
  }

  /** In the four-voter membership every name and flag the retirement checks is as reviewed. */
  lemma FourVotersPass(t: Topology, ms: seq<Member>, m: map<Url, Member>)
    requires Reviewed(t) && At(t, FourVoters, ms) && IndexedBy(ms, m)
    ensures m.Keys == Urls(t.Before()) + {t.joiningUrl} && NewVotersPresent(t, m)
    ensures t.leavingUrl in m && m[t.leavingUrl].name == t.leaving && !m[t.leavingUrl].learner
  {
    SeenAt(t, FourVoters, ms, m);
    BeforeNamed(t, FourVoters, ms, m);
    assert t.leaving in t.Before() && t.Before()[t.leaving] == t.leavingUrl;
    forall n | n in t.After()
      ensures t.After()[n] in m && m[t.After()[n]].name == n && !m[t.After()[n]].learner
    {
      if n != t.joining {
        assert n in t.Before() && t.Before()[n] == t.After()[n];
      }
    }
  }

  /** Until the old voter is retired, every old voter is seen under its own name. */
  lemma BeforeNamed(t: Topology, phase: Phase, ms: seq<Member>, m: map<Url, Member>)
    requires Reviewed(t) && At(t, phase, ms) && IndexedBy(ms, m) && phase != NewVoters
    ensures forall n :: n in t.Before() ==>
              t.Before()[n] in m && Seen(m[t.Before()[n]]) == Entry(n, [t.Before()[n]], false)
  {
    SeenAt(t, phase, ms, m);
    PeersOfEntries(ms, m);
    forall n | n in t.Before()
      ensures t.Before()[n] in m && Seen(m[t.Before()[n]]) == Entry(n, [t.Before()[n]], false)
    {
      assert t.Before()[n] in Urls(t.Before());
      VoterEntry(t, n, Seen(m[t.Before()[n]]));
    }
  }

  lemma VoterEntry(t: Topology, n: string, e: Entry)
    requires Reviewed(t) && n in t.Before() && e.peers == [t.Before()[n]]
    requires e in Voting(t.Before()) || e.peers == [t.joiningUrl]
    ensures e == Entry(n, [t.Before()[n]], false)
  {
    var all := t.staying[t.leaving := t.leavingUrl][t.joining := t.joiningUrl];
    assert all[n] == t.Before()[n] && all[t.joining] == t.joiningUrl;
    assert [t.joiningUrl][0] != [t.Before()[n]][0];
    var k :| k in t.Before() && e == Entry(k, [t.Before()[k]], false);
    assert e.peers[0] == t.Before()[k] == all[k];
  }

  lemma OnlyWithLearner(t: Topology, ms: seq<Member>, m: map<Url, Member>)
    requires Reviewed(t) && Known(t, ms) && IndexedBy(ms, m) && t.joiningUrl in m && m[t.joiningUrl].learner
    ensures At(t, WithLearner, ms)
    ensures Entries(ms) - {Seen(m[t.joiningUrl])} == Voting(t.Before())
    ensures m[t.joiningUrl].peers == [t.joiningUrl]
  {
    var phase :| At(t, phase, ms);
    SeenAt(t, phase, ms, m);
    NotYet(t);
    PeersOfEntries(ms, m);
    JoinerIsApart(t);
  }

  /** No old voter sits at the joining URL. */
  lemma JoinerIsApart(t: Topology)
    requires Reviewed(t)
    ensures forall e :: e in Voting(t.Before()) ==> e.peers != [t.joiningUrl] && !e.learner
    ensures forall e :: e in Voting(t.After()) ==> !e.learner
  {
    NotYet(t);
  }

  lemma JoinedIsSeen(t: Topology, ms: seq<Member>, m: map<Url, Member>)
    requires Reviewed(t) && IndexedBy(ms, m)
    ensures Entries(ms) == Voting(t.Before()) + {Entry(t.joining, [t.joiningUrl], true)} ==>
              m.Keys == Urls(t.Before()) + {t.joiningUrl} && m[t.joiningUrl].name == t.joining
  {
    PeersOfEntries(ms, m);
    PeersInVoting(t.Before());
    PeersInAdd(Voting(t.Before()), Entry(t.joining, [t.joiningUrl], true), t.joiningUrl);
    JoinerIsApart(t);
  }

  lemma PromotesToFour(t: Topology, ms: seq<Member>, m: map<Url, Member>)
    requires Reviewed(t) && At(t, WithLearner, ms) && IndexedBy(ms, m) && t.joiningUrl in m && m[t.joiningUrl].learner
    requires m[t.joiningUrl].name == t.joining
    ensures At(t, FourVoters, Promoted(ms, m[t.joiningUrl].id))
  {
    var learner := m[t.joiningUrl];
    OnlyWithLearner(t, ms, m);
    Identified(ms, learner);
    var i := IndexById(ms, learner.id);
    EntriesUpdate(ms, i, learner.(learner := false));
  }

  lemma RetiresToNew(t: Topology, ms: seq<Member>, m: map<Url, Member>)
    requires Reviewed(t) && At(t, FourVoters, ms) && IndexedBy(ms, m) && t.leavingUrl in m
    ensures At(t, NewVoters, Removed(ms, m[t.leavingUrl].id))
  {
    var leaver := m[t.leavingUrl];
    Identified(ms, leaver);
    EntriesRemove(ms, IndexById(ms, leaver.id));
    DroppedStaysDistinct(ms, IndexById(ms, leaver.id));
    PeersOfEntries(ms, m);
    LeaverEntry(t, Seen(leaver));
    VotingSwap(t);
  }

  lemma LeaverEntry(t: Topology, e: Entry)
    requires Reviewed(t) && e.peers == [t.leavingUrl]
    requires e in Voting(t.Before()) + {Entry(t.joining, [t.joiningUrl], false)}
    ensures e == Entry(t.leaving, [t.leavingUrl], false)
  {
    NotYet(t);
    assert [t.joiningUrl][0] != [t.leavingUrl][0];
    if e in Voting(t.Before()) {
      var n :| n in t.Before() && e == Entry(n, [t.Before()[n]], false);
      assert t.Before()[n] == t.leavingUrl;
      var all := t.staying[t.leaving := t.leavingUrl][t.joining := t.joiningUrl];
      assert all[n] == all[t.leaving];
    }
  }

  lemma VotingSwap(t: Topology)
    requires Reviewed(t)
    ensures Voting(t.Before()) + {Entry(t.joining, [t.joiningUrl], false)} - {Entry(t.leaving, [t.leavingUrl], false)}
            == Voting(t.After())
  {
    var a := Voting(t.Before()) + {Entry(t.joining, [t.joiningUrl], false)} - {Entry(t.leaving, [t.leavingUrl], false)};
    forall e
      ensures e in a <==> e in Voting(t.After())
    {
      if e in a && e in Voting(t.Before()) {
        var n :| n in t.Before() && e == Entry(n, [t.Before()[n]], false);
        assert n in t.staying && t.After()[n] == t.Before()[n];
      }
      if e in a && e !in Voting(t.Before()) {
        assert t.After()[t.joining] == t.joiningUrl;
      }
      if e in Voting(t.After()) {
        var n :| n in t.After() && e == Entry(n, [t.After()[n]], false);
        if n != t.joining {
          assert n in t.Before() && t.Before()[n] == t.After()[n];
        }
      }
    }
  }

  /** The name check accepts a known membership only when it is the new one. */
  lemma NewExactly(t: Topology, phase: Phase, ms: seq<Member>, actual: map<string, seq<Url>>)
    requires Reviewed(t) && At(t, phase, ms)
    requires forall n :: n in actual <==> exists k :: 0 <= k < |ms| && ms[k].name == n
    requires forall n :: n in actual ==> exists k :: 0 <= k < |ms| && ms[k].name == n && ms[k].peers == actual[n]
    ensures (actual == map n | n in t.After() :: [t.After()[n]]) <==> phase == NewVoters
    ensures phase == NewVoters ==> forall i :: 0 <= i < |ms| ==> !ms[i].learner
  {
    if phase == NewVoters {
      NewNames(t, ms, actual);
    } else {
      assert t.leaving in t.Before() && t.leaving !in t.After();
      assert Entry(t.leaving, [t.Before()[t.leaving]], false) in Entries(ms);
      assert t.leaving in actual;
    }
  }

  lemma NewNames(t: Topology, ms: seq<Member>, actual: map<string, seq<Url>>)
    requires Entries(ms) == Voting(t.After())
    requires forall n :: n in actual <==> exists k :: 0 <= k < |ms| && ms[k].name == n
    requires forall n :: n in actual ==> exists k :: 0 <= k < |ms| && ms[k].name == n && ms[k].peers == actual[n]
    ensures actual == map n | n in t.After() :: [t.After()[n]]
    ensures forall i :: 0 <= i < |ms| ==> !ms[i].learner
  {
    assert forall i :: 0 <= i < |ms| ==> Seen(ms[i]) in Entries(ms);
    forall n
      ensures n in actual <==> n in t.After()
      ensures n in actual ==> actual[n] == [t.After()[n]]
    {
      if n in t.After() {
        assert Entry(n, [t.After()[n]], false) in Entries(ms);
      }
    }
  }

  lemma {:induction false} LastPeersAre(ms: seq<Member>)
    ensures forall n :: n in LastPeers(ms) <==> exists k :: 0 <= k < |ms| && ms[k].name == n
    ensures forall n :: n in LastPeers(ms) ==>
              exists k :: 0 <= k < |ms| && ms[k].name == n && ms[k].peers == LastPeers(ms)[n]
  {
    if ms != [] {
      var rest := ms[..|ms| - 1];
      LastPeersAre(rest);
      forall n
        ensures n in LastPeers(ms) <==> exists k :: 0 <= k < |ms| && ms[k].name == n
        ensures n in LastPeers(ms) ==> exists k :: 0 <= k < |ms| && ms[k].name == n && ms[k].peers == LastPeers(ms)[n]
      {
        if n == ms[|ms| - 1].name {
          assert ms[|ms| - 1].peers == LastPeers(ms)[n];
        } else if n in LastPeers(rest) {
          var k :| 0 <= k < |rest| && rest[k].name == n && rest[k].peers == LastPeers(rest)[n];
          assert ms[k].name == n && ms[k].peers == LastPeers(ms)[n];
        } else {
          forall k | 0 <= k < |rest| ensures ms[k].name != n { assert rest[k].name != n; }
        }
      }
    }
  }

  lemma KnownNamesCheck(t: Topology, ms: seq<Member>)
    requires Reviewed(t) && Known(t, ms)
    ensures NamesCheck(t, ms) <==> At(t, NewVoters, ms)
  {
    var phase :| At(t, phase, ms);
    LastPeersAre(ms);
    NewExactly(t, phase, ms, LastPeers(ms));
    if phase != NewVoters { OnePhase(t, phase, ms); }
  }

  /** No two members share a name without sharing their peers. */
  ghost predicate Unshadowed(ms: seq<Member>) {
    forall i, j :: 0 <= i < |ms| && 0 <= j < |ms| && ms[i].name == ms[j].name ==> ms[i].peers == ms[j].peers
  }

  /** In any membership at all: the name check means exactly the new voters, if and only if no member is shadowed. */
  lemma NamesCheckIsExact(t: Topology, ms: seq<Member>)
    ensures Entries(ms) == Voting(t.After()) <==> NamesCheck(t, ms) && Unshadowed(ms)
  {
    LastPeersAre(ms);
    if Entries(ms) == Voting(t.After()) {
      NewNames(t, ms, LastPeers(ms));
      assert forall i :: 0 <= i < |ms| ==> Seen(ms[i]) in Entries(ms);
    }
    if NamesCheck(t, ms) && Unshadowed(ms) {
      CheckedEntries(t, ms);
    }
  }

  lemma CheckedEntries(t: Topology, ms: seq<Member>)
    requires NamesCheck(t, ms) && Unshadowed(ms)
    ensures Entries(ms) == Voting(t.After())
  {
    LastPeersAre(ms);
    forall i | 0 <= i < |ms|
      ensures Seen(ms[i]) in Voting(t.After())
    {
      assert ms[i].name in LastPeers(ms);
      var k :| 0 <= k < |ms| && ms[k].name == ms[i].name && ms[k].peers == LastPeers(ms)[ms[i].name];
      assert Seen(ms[i]) == Entry(ms[i].name, [t.After()[ms[i].name]], false);
    }
    forall n | n in t.After()
      ensures Entry(n, [t.After()[n]], false) in Entries(ms)
    {
      assert n in LastPeers(ms);
      var k :| 0 <= k < |ms| && ms[k].name == n && ms[k].peers == LastPeers(ms)[n];
      assert Seen(ms[k]) == Entry(n, [t.After()[n]], false);
    }
  }

  /** A name that comes again later leaves no trace in the comparison. */
  lemma {:induction false} LastPeersForget(first: Member, ms: seq<Member>)
    requires exists k :: 0 <= k < |ms| && ms[k].name == first.name
    ensures LastPeers([first] + ms) == LastPeers(ms)
  {
    var n := |ms| - 1;
    assert ([first] + ms)[..n + 1] == [first] + ms[..n];
    if ms[n].name == first.name {
      LastPeersBut(first, ms[..n]);
      SameButOne(LastPeers([first] + ms[..n]), LastPeers(ms[..n]), first.name, first.name, ms[n].peers);
    } else {
      var k :| 0 <= k < |ms| && ms[k].name == first.name;
      assert ms[..n][k].name == first.name;
      LastPeersForget(first, ms[..n]);
    }
  }

  lemma {:induction false} LastPeersBut(first: Member, ms: seq<Member>)
    ensures LastPeers([first] + ms) - {first.name} == LastPeers(ms) - {first.name}
  {
    if ms == [] {
      assert [first] + ms == [first] && [first][..0] == [];
    } else {
      var n := |ms| - 1;
      assert ([first] + ms)[..n + 1] == [first] + ms[..n];
      LastPeersBut(first, ms[..n]);
      SameButOne(LastPeers([first] + ms[..n]), LastPeers(ms[..n]), first.name, ms[n].name, ms[n].peers);
    }
  }

  /** Maps that agree but for one key agree no less after an update, and altogether when it is that key. */
  lemma SameButOne<K, V>(a: map<K, V>, b: map<K, V>, key: K, updated: K, v: V)
    requires a - {key} == b - {key}
    ensures a[updated := v] - {key} == b[updated := v] - {key}
    ensures updated == key ==> a[updated := v] == b[updated := v]
  {
    forall k | k != key
      ensures k in a <==> k in b
      ensures k in a ==> a[k] == b[k]
    {
      assert k in a <==> k in a - {key};
      assert k in b <==> k in b - {key};
      assert k in a - {key} ==> (a - {key})[k] == a[k] && (b - {key})[k] == b[k];
    }
  }

  /**
   For every topology: a voter at any other URL that takes a new voter's name, listed before the new voters, passes
   the name check unnoticed.
   */
  lemma ShadowedMemberPasses(t: Topology, voters: seq<Member>, shadow: Member)
    requires At(t, NewVoters, voters) && Unused(voters, shadow.id)
    requires shadow.name in t.After() && |shadow.peers| == 1 && shadow.peers[0] !in Urls(t.After()) && !shadow.learner
    ensures var ms := [shadow] + voters;
            && SinglePeers(ms) && DistinctIds(ms) && NamesCheck(t, ms) && Entries(ms) != Voting(t.After())
  {
    ShadowApart(t, voters, shadow);
    NamesCheckIsExact(t, voters);
    LastPeersAre(voters);
    assert shadow.name in LastPeers(voters);
    LastPeersForget(shadow, voters);
    ShadowIsForeign(t, [shadow] + voters);
  }

  lemma ShadowApart(t: Topology, voters: seq<Member>, shadow: Member)
    requires At(t, NewVoters, voters) && Unused(voters, shadow.id) && |shadow.peers| == 1
             && shadow.peers[0] !in Urls(t.After())
    ensures SinglePeers([shadow] + voters) && DistinctIds([shadow] + voters)
  {
    forall i | 0 <= i < |voters|
      ensures voters[i].peers != shadow.peers
    {
      assert Seen(voters[i]) in Entries(voters);
      var n :| n in t.After() && Seen(voters[i]) == Entry(n, [t.After()[n]], false);
      assert voters[i].peers[0] in Urls(t.After());
    }
  }

  lemma ShadowIsForeign(t: Topology, ms: seq<Member>)
    requires ms != [] && |ms[0].peers| == 1 && ms[0].peers[0] !in Urls(t.After())
    ensures Entries(ms) != Voting(t.After())
  {
    assert Seen(ms[0]) in Entries(ms);
    assert forall n :: n in t.After() ==> [t.After()[n]][0] in Urls(t.After());
  }

  /** The deployed replacement, with one letter for each host. */
  const DEPLOYED := Topology(map["b" := "B", "e" := "E"], "g", "G", "h", "H")

  const VOTERS := [Member(2, "b", ["B"], false), Member(3, "e", ["E"], false), Member(4, "h", ["H"], false)]

  lemma DeploymentIsReviewed()
    ensures Reviewed(DEPLOYED)
  {
    LettersDiffer();
  }

  lemma DeployedVoters()
    ensures At(DEPLOYED, NewVoters, VOTERS)
  {
    LettersDiffer();
    ThreeVoters(DEPLOYED, VOTERS);
  }

  /** Its three new voters, listed after a stranger that calls itself `h`, pass. */
  lemma ShadowedDeployment()
    ensures var ms := [Member(1, "h", ["X"], false)] + VOTERS;
            Reviewed(DEPLOYED) && NamesCheck(DEPLOYED, ms) && !At(DEPLOYED, NewVoters, ms)
  {
    DeploymentIsReviewed();
    DeployedVoters();
    LettersDiffer();
    ShadowedMemberPasses(DEPLOYED, VOTERS, Member(1, "h", ["X"], false));
  }

  lemma LettersDiffer()
    ensures "b" != "e" && "b" != "g" && "b" != "h" && "e" != "g" && "e" != "h" && "g" != "h"
            && "" !in {"b", "e", "g", "h"}
    ensures "B" != "E" && "B" != "G" && "B" != "H" && "E" != "G" && "E" != "H" && "G" != "H"
            && "X" !in {"B", "E", "G", "H"}
  {
    assert "b"[0] != "e"[0] && "b"[0] != "g"[0] && "b"[0] != "h"[0] && "e"[0] != "g"[0] && "e"[0] != "h"[0]
      && "g"[0] != "h"[0];
    assert "B"[0] != "E"[0] && "B"[0] != "G"[0] && "B"[0] != "H"[0] && "E"[0] != "G"[0] && "E"[0] != "H"[0]
      && "G"[0] != "H"[0];
    assert "X"[0] != "B"[0] && "X"[0] != "E"[0] && "X"[0] != "G"[0] && "X"[0] != "H"[0];
  }

  lemma ThreeVoters(t: Topology, ms: seq<Member>)
    requires |ms| == 3 && DistinctIds(ms)
    requires forall i :: 0 <= i < 3 ==>
               ms[i].name in t.After() && ms[i].peers == [t.After()[ms[i].name]] && !ms[i].learner
    requires forall n :: n in t.After() ==> n == ms[0].name || n == ms[1].name || n == ms[2].name
    requires forall i, j :: 0 <= i < j < 3 ==> ms[i].peers[0] != ms[j].peers[0]
    ensures At(t, NewVoters, ms)
  {
    assert forall i, j :: 0 <= i < j < 3 ==> ms[i].peers != ms[j].peers;
    forall e
      ensures e in Entries(ms) <==> e in Voting(t.After())
    {
      assert Seen(ms[0]) in Entries(ms) && Seen(ms[1]) in Entries(ms) && Seen(ms[2]) in Entries(ms);
      if e in Voting(t.After()) {
        var n :| n in t.After() && e == Entry(n, [t.After()[n]], false);
      }
    }
  }

  /** What the checks before an addition see in a known membership. */
  lemma BeforeAdding(t: Topology, ms: seq<Member>, m: map<Url, Member>)
    requires Reviewed(t) && IndexedBy(ms, m)
    ensures t.joiningUrl !in Urls(t.Before())
    ensures At(t, OldVoters, ms) ==> m.Keys == Urls(t.Before()) && OldVotersNamed(t, m)
    ensures At(t, WithLearner, ms) ==>
              m.Keys == Urls(t.Before()) + {t.joiningUrl} && OldVotersNamed(t, m) && m[t.joiningUrl].learner
    ensures At(t, FourVoters, ms) ==> m.Keys == Urls(t.Before()) + {t.joiningUrl} && !m[t.joiningUrl].learner
    ensures At(t, NewVoters, ms) ==> m.Keys != Urls(t.Before()) && m.Keys != Urls(t.Before()) + {t.joiningUrl}
  {
    NotYet(t);
    OldUnlessJoining(t);
    forall phase | At(t, phase, ms)
      ensures phase == OldVoters ==> m.Keys == Urls(t.Before()) && OldVotersNamed(t, m)
      ensures phase == WithLearner ==>
                m.Keys == Urls(t.Before()) + {t.joiningUrl} && OldVotersNamed(t, m) && m[t.joiningUrl].learner
      ensures phase == FourVoters ==> m.Keys == Urls(t.Before()) + {t.joiningUrl} && !m[t.joiningUrl].learner
      ensures phase == NewVoters ==> m.Keys == Urls(t.After())
    {
      SeenAt(t, phase, ms, m);
      if phase != NewVoters { BeforeNamed(t, phase, ms, m); }
    }
  }

  /** In a known membership an addition leads from the old voters to the learner, and nowhere else. */
  lemma AddMoves(t: Topology, ms: seq<Member>, id: nat)
    requires Reviewed(t) && Known(t, ms)
    ensures MayAdd(t, ms) <==> At(t, OldVoters, ms)
    ensures MayAdd(t, ms) && Unused(ms, id) ==> At(t, WithLearner, ms + [Member(id, "", [t.joiningUrl], true)])
    ensures At(t, WithLearner, ms) ==> BothPresent(t, ms) && OldVotersNamed(t, Index(ms).value)
  {
    IndexIsExact(ms);
    BeforeAdding(t, ms, Index(ms).value);
    if MayAdd(t, ms) && Unused(ms, id) {
      var added := Member(id, "", [t.joiningUrl], true);
      EntriesAppend(ms, added);
      AppendedPeers(ms, Index(ms).value, added);
    }
  }

  /**
   In a known membership the joining peer is a learner exactly in the second, and a voter under its name in the third.
   */
  lemma JoinerSeen(t: Topology, ms: seq<Member>)
    requires Reviewed(t) && Known(t, ms)
    ensures (BothPresent(t, ms) && Index(ms).value[t.joiningUrl].learner) <==> At(t, WithLearner, ms)
    ensures At(t, FourVoters, ms) ==>
              BothPresent(t, ms) && Index(ms).value[t.joiningUrl].name == t.joining
                && !Index(ms).value[t.joiningUrl].learner
  {
    IndexIsExact(ms);
    BeforeAdding(t, ms, Index(ms).value);
    if At(t, FourVoters, ms) { SeenAt(t, FourVoters, ms, Index(ms).value); }
  }

  /** In a known membership exactly a joined learner is promoted, and then there are four voters. */
  lemma PromoteMoves(t: Topology, ms: seq<Member>)
    requires Reviewed(t) && Known(t, ms)
    ensures BothPresent(t, ms) ==>
              if Index(ms).value[t.joiningUrl].learner then At(t, WithLearner, ms) else At(t, FourVoters, ms)
    ensures ToPromote(t, ms).Some? ==>
              At(t, WithLearner, ms) && At(t, FourVoters, Promoted(ms, ToPromote(t, ms).value.id))
    ensures At(t, WithLearner, ms) && Entry(t.joining, [t.joiningUrl], true) in Entries(ms) ==> ToPromote(t, ms).Some?
  {
    IndexIsExact(ms);
    var m := Index(ms).value;
    BeforeAdding(t, ms, m);
    JoinedIsSeen(t, ms, m);
    JoinerIsApart(t);
    if ToPromote(t, ms).Some? { PromotesToFour(t, ms, m); }
  }

  /** In a known membership a voter is retired exactly from four, and then there are the new voters. */
  lemma RetireMoves(t: Topology, ms: seq<Member>)
    requires Reviewed(t) && Known(t, ms)
    ensures ToRetire(t, ms).Some? <==> At(t, FourVoters, ms)
    ensures ToRetire(t, ms).Some? ==> At(t, NewVoters, Removed(ms, ToRetire(t, ms).value.id))
  {
    IndexIsExact(ms);
    var m := Index(ms).value;
    NotYet(t);
    BeforeAdding(t, ms, m);
    assert t.joining in t.After() && t.After()[t.joining] == t.joiningUrl;
    if At(t, FourVoters, ms) {
      FourVotersPass(t, ms, m);
      RetiresToNew(t, ms, m);
    }
  }

  lemma JoinMoves(t: Topology, ms: seq<Member>)
    requires Reviewed(t) && Known(t, ms)
    ensures Joined(t, ms) == ms || (At(t, WithLearner, ms) && At(t, WithLearner, Joined(t, ms)))
    ensures At(t, WithLearner, ms) ==> Entry(t.joining, [t.joiningUrl], true) in Entries(Joined(t, ms))
  {
    IndexIsExact(ms);
    var m := Index(ms).value;
    BeforeAdding(t, ms, m);
    if t.joiningUrl in m && m[t.joiningUrl].learner {
      Identified(ms, m[t.joiningUrl]);
      var i := IndexById(ms, m[t.joiningUrl].id);
      OnlyWithLearner(t, ms, m);
      EntriesUpdate(ms, i, ms[i].(name := t.joining));
    }
  }

  lemma OnePhase(t: Topology, phase: Phase, ms: seq<Member>)
    requires Reviewed(t) && At(t, phase, ms) && phase != NewVoters
    ensures !At(t, NewVoters, ms)
  {
    assert t.leaving in t.Before();
    assert Entry(t.leaving, [t.Before()[t.leaving]], false) in Entries(ms);
    assert t.leaving !in t.After();
  }

  // ---------- runs ----------

  ghost function Electors(es: set<Entry>): set<Entry> {
    set e | e in es && !e.learner
  }

  /** Peers entitled to vote. */
  ghost function VoterUrls(ms: seq<Member>): set<Url> { PeersIn(Electors(Entries(ms))) }

  ghost predicate Majority(q: set<Url>, voters: set<Url>) { q <= voters && 2 * |q| > |voters| }

  lemma VotersOfPhase(t: Topology, phase: Phase, ms: seq<Member>)
    requires Reviewed(t) && At(t, phase, ms)
    ensures VoterUrls(ms) == match phase {
              case OldVoters => Urls(t.Before())
              case WithLearner => Urls(t.Before())
              case FourVoters => Urls(t.Before()) + {t.joiningUrl}
              case NewVoters => Urls(t.Before()) + {t.joiningUrl} - {t.leavingUrl}
            }
  {
    JoinerIsApart(t);
    var voting := Voting(t.Before());
    match phase {
      case OldVoters =>
        assert Electors(Entries(ms)) == voting;
        PeersInVoting(t.Before());
      case WithLearner =>
        assert Electors(Entries(ms)) == voting;
        PeersInVoting(t.Before());
      case FourVoters =>
        assert Electors(Entries(ms)) == voting + {Entry(t.joining, [t.joiningUrl], false)};
        PeersInAdd(voting, Entry(t.joining, [t.joiningUrl], false), t.joiningUrl);
        PeersInVoting(t.Before());
      case NewVoters =>
        assert Electors(Entries(ms)) == Voting(t.After());
        PeersInVoting(t.After());
        UrlsSwap(t);
    }
  }

  lemma UrlsSwap(t: Topology)
    requires Reviewed(t)
    ensures Urls(t.After()) == Urls(t.Before()) + {t.joiningUrl} - {t.leavingUrl}
  {
    NotYet(t);
    forall u
      ensures u in Urls(t.After()) <==> u in Urls(t.Before()) + {t.joiningUrl} - {t.leavingUrl}
    {
      if u in Urls(t.Before()) && u != t.leavingUrl {
        var n :| n in t.Before() && t.Before()[n] == u;
        assert n in t.After() && t.After()[n] == u;
      }
      if u in Urls(t.After()) && u != t.joiningUrl {
        var n :| n in t.After() && t.After()[n] == u;
        assert n in t.Before() && t.Before()[n] == u;
      }
    }
  }

  lemma Overlap(q1: set<Url>, q2: set<Url>, all: set<Url>)
    requires q1 <= all && q2 <= all && |q1| + |q2| > |all|
    ensures q1 * q2 != {}
  {
    if q1 * q2 == {} {
      assert |q1 + q2| == |q1| + |q2|;
      SubsetSize(q1 + q2, all);
    }
  }

  /** Any two consecutive memberships have a member in common in every pair of majorities. */
  lemma MajoritiesMeet(t: Topology, ms: seq<Member>, ms': seq<Member>, q: set<Url>, q': set<Url>)
    requires Reviewed(t) && Known(t, ms) && Moves(t, ms, ms')
    requires Majority(q, VoterUrls(ms)) && Majority(q', VoterUrls(ms'))
    ensures q * q' != {}
  {
    var phase :| At(t, phase, ms);
    VotersOfPhase(t, phase, ms);
    NotYet(t);
    var old3 := Urls(t.Before());
    if ms' == ms {
      Overlap(q, q', VoterUrls(ms));
    } else if At(t, OldVoters, ms) && At(t, WithLearner, ms') {
      VotersOfPhase(t, OldVoters, ms);
      VotersOfPhase(t, WithLearner, ms');
      Overlap(q, q', old3);
    } else if At(t, WithLearner, ms) && At(t, WithLearner, ms') {
      VotersOfPhase(t, WithLearner, ms);
      VotersOfPhase(t, WithLearner, ms');
      Overlap(q, q', old3);
    } else if At(t, WithLearner, ms) && At(t, FourVoters, ms') {
      VotersOfPhase(t, WithLearner, ms);
      VotersOfPhase(t, FourVoters, ms');
      Overlap(q, q', old3 + {t.joiningUrl});
    } else {
      VotersOfPhase(t, FourVoters, ms);
      VotersOfPhase(t, NewVoters, ms');
      Overlap(q, q', old3 + {t.joiningUrl});
    }
  }

  /** The voter count never drops below the one it started with. */
  lemma NeverFewerVoters(t: Topology, ms: seq<Member>)
    requires Reviewed(t) && Known(t, ms)
    ensures |t.Before()| <= |VoterUrls(ms)| <= |t.Before()| + 1
  {
    var phase :| At(t, phase, ms);
    VotersOfPhase(t, phase, ms);
    NotYet(t);
    UrlCount(t.Before(), t);
  }

  lemma UrlCount(m: map<string, Url>, t: Topology)
    requires Reviewed(t) && m == t.Before()
    ensures |Urls(m)| == |m|
  {
    var all := t.staying[t.leaving := t.leavingUrl][t.joining := t.joiningUrl];
    forall n | n in m ensures n in all && all[n] == m[n] {}
    InjectiveCount(m);
  }

  lemma {:induction false} InjectiveCount(m: map<string, Url>)
    requires Injective(m)
    ensures |Urls(m)| == |m|
    decreases |m|
  {
    if m.Keys == {} {
      assert Urls(m) == {};
    } else {
      var n :| n in m;
      var rest := m - {n};
      InjectiveCount(rest);
      assert Urls(m) == Urls(rest) + {m[n]} by {
        forall u ensures u in Urls(m) <==> u in Urls(rest) + {m[n]} {
          if u in Urls(m) {
            var k :| k in m && m[k] == u;
            if k != n { assert k in rest; }
          }
        }
      }
      assert m[n] !in Urls(rest);
      assert rest.Keys == m.Keys - {n};
    }
  }

  /** A moment a run of the tool may be in: a reviewed membership, published only in the last. */
  ghost predicate Sound(t: Topology, s: Moment) {
    Known(t, s.members) && (s.published ==> At(t, NewVoters, s.members))
  }

  /** Whatever the answers, every action makes one permitted move or none, and publishes only the new voters. */
  lemma StepMoves(t: Topology, s: Moment, action: Action)
    requires Reviewed(t) && Sound(t, s)
    ensures Moves(t, s.members, Next(t, s, action).members) && Sound(t, Next(t, s, action))
  {
    match action {
      case Add(id, _, _, _, _) => AddMoves(t, s.members, id);
      case Join => JoinMoves(t, s.members);
      case Promote(_, _, _, _) => PromoteMoves(t, s.members);
      case Retire(_, _, _, _, _) => RetireMoves(t, s.members);
      case Publish(_, _, _) => KnownNamesCheck(t, s.members);
    }
    if s.published {
      NewIsFinal(t, s.members, Next(t, s, action).members);
    }
  }

  lemma {:induction false} RunKeeps(t: Topology, s: Moment, actions: seq<Action>)
    requires Reviewed(t) && Sound(t, s)
    ensures Sound(t, After(t, s, actions))
    decreases |actions|
  {
    if actions != [] {
      StepMoves(t, s, actions[0]);
      RunKeeps(t, Next(t, s, actions[0]), actions[1..]);
    }
  }

  /**
   From the reviewed voters, after any sequence of actions with any answers: one of the four memberships, never
   fewer voters than at the start, and published only in the last.
   */
  lemma RunsStayReviewed(t: Topology, voters: seq<Member>, staged: Files, actions: seq<Action>)
    requires Reviewed(t) && At(t, OldVoters, voters)
    ensures var s := After(t, Moment(voters, staged, false), actions);
            && Known(t, s.members) && |VoterUrls(s.members)| >= |t.Before()|
            && (s.published ==> At(t, NewVoters, s.members))
  {
    RunKeeps(t, Moment(voters, staged, false), actions);
    NeverFewerVoters(t, After(t, Moment(voters, staged, false), actions).members);
  }

  /** And across every action of such a run, any majority before it meets any majority after it. */
  lemma RunsKeepMajorities(t: Topology, voters: seq<Member>, staged: Files, actions: seq<Action>, action: Action,
                           q: set<Url>, q': set<Url>)
    requires Reviewed(t) && At(t, OldVoters, voters)
    requires Majority(q, VoterUrls(After(t, Moment(voters, staged, false), actions).members))
    requires Majority(q', VoterUrls(Next(t, After(t, Moment(voters, staged, false), actions), action).members))
    ensures q * q' != {}
  {
    var s := After(t, Moment(voters, staged, false), actions);
    RunKeeps(t, Moment(voters, staged, false), actions);
    StepMoves(t, s, action);
    MajoritiesMeet(t, s.members, Next(t, s, action).members, q, q');
  }

  // ---------- which runs can still publish ----------

  /** A commit that meets no obstacle. */
  const CLEAN := Answers({}, true, {}, RENAMES + 2, 0)

  /** The steps before publishing, all answered. */
  function Replacement(id: nat): seq<Action> {
    [Add(id, true, true, Done, true), Join, Promote(true, Done, true, true), Retire(true, true, Done, true, true)]
  }

  /** All steps, all answered. */
  function Completion(id: nat): seq<Action> { Replacement(id) + [Publish(true, true, CLEAN)] }

  /** The files on a run from a staged replacement: as they were until a commit gets under way. */
  ghost predicate Follows(staged: Files, s: Moment) {
    && (!s.files.previous ==> s.files == staged && !s.published)
    && (s.published <==> Replaced(staged, s.files))
  }

  lemma StepFollows(t: Topology, staged: Files, s: Moment, action: Action)
    requires ReadyToCommit(staged) && Follows(staged, s)
    ensures Follows(staged, Next(t, s, action))
    ensures s.files.previous ==> Next(t, s, action).files == s.files
  {
    if action.Publish? { CommitLeaves(s.files, action.answers); }
  }

  lemma {:induction false} RunFollows(t: Topology, staged: Files, s: Moment, actions: seq<Action>)
    requires ReadyToCommit(staged) && Follows(staged, s)
    ensures Follows(staged, After(t, s, actions))
    ensures s.files.previous ==> After(t, s, actions).files == s.files
    decreases |actions|
  {
    if actions != [] {
      StepFollows(t, staged, s, actions[0]);
      RunFollows(t, staged, Next(t, s, actions[0]), actions[1..]);
    }
  }

  /** Some later sequence of commands publishes the new voters. */
  ghost predicate Publishable(t: Topology, s: Moment) { exists more :: After(t, s, more).published }

  /**
   From the reviewed voters and a matching stage, after any sequence of actions with any answers: the new voters can
   still be published if and only if they are already, or no commit has got as far as its backup directory. Then
   repeating the commands in order does it.
   */
  lemma PublishableExactly(t: Topology, voters: seq<Member>, staged: Files, actions: seq<Action>, id: nat)
    requires Reviewed(t) && At(t, OldVoters, voters) && ReadyToCommit(staged) && StageMatches(staged)
    requires Unused(After(t, Moment(voters, staged, false), actions).members, id)
    ensures var s := After(t, Moment(voters, staged, false), actions);
            && (Publishable(t, s) <==> s.published || !s.files.previous)
            && (After(t, s, Completion(id)).published <==> s.published || !s.files.previous)
            && At(t, NewVoters, After(t, s, Completion(id)).members)
  {
    var s := After(t, Moment(voters, staged, false), actions);
    RunKeeps(t, Moment(voters, staged, false), actions);
    RunFollows(t, staged, Moment(voters, staged, false), actions);
    Completes(t, staged, s, id);
    if s.published || !s.files.previous {
      assert After(t, s, Completion(id)).published;
    } else {
      forall more
        ensures !After(t, s, more).published
      {
        RunFollows(t, staged, s, more);
      }
    }
  }

  lemma Completes(t: Topology, staged: Files, s: Moment, id: nat)
    requires Reviewed(t) && Sound(t, s) && Unused(s.members, id)
    requires ReadyToCommit(staged) && StageMatches(staged) && Follows(staged, s)
    ensures var s' := After(t, s, Completion(id));
            && At(t, NewVoters, s'.members)
            && (s'.published <==> s.published || !s.files.previous)
  {
    var s4 := After(t, s, Replacement(id));
    Replaces(t, s, id);
    AfterSnoc(t, s, Replacement(id), Publish(true, true, CLEAN));
    KnownNamesCheck(t, s4.members);
    CommitLeaves(s4.files, CLEAN);
  }

  /**
   A commit killed right after making its backup directory leaves the old authority in place and the new voters
   unpublished, for good.
   */
  lemma KilledCommitIsFinal(t: Topology, voters: seq<Member>, staged: Files, id: nat, more: seq<Action>)
    requires Reviewed(t) && At(t, OldVoters, voters) && Unused(voters, id)
    requires ReadyToCommit(staged) && StageMatches(staged)
    ensures var run := Replacement(id) + [Publish(true, true, CLEAN.(lifetime := 1))];
            var s := After(t, Moment(voters, staged, false), run);
            && At(t, NewVoters, s.members) && Original(staged, s.files)
            && !After(t, s, more).published && After(t, s, more).files == s.files
  {
    var s0 := Moment(voters, staged, false);
    var publish := Publish(true, true, CLEAN.(lifetime := 1));
    Replaces(t, s0, id);
    AfterSnoc(t, s0, Replacement(id), publish);
    var s4 := After(t, s0, Replacement(id));
    KnownNamesCheck(t, s4.members);
    var s := Next(t, s4, publish);
    assert s.files == Advanced(staged, 1);
    RunFollows(t, staged, s0, Replacement(id) + [publish]);
    RunFollows(t, staged, s, more);
  }

  lemma Replaces(t: Topology, s0: Moment, id: nat)
    requires Reviewed(t) && Sound(t, s0) && Unused(s0.members, id)
    ensures var s4 := After(t, s0, Replacement(id));
            At(t, NewVoters, s4.members) && s4.files == s0.files && s4.published == s0.published
  {
    var add, promote, retire := Add(id, true, true, Done, true), Promote(true, Done, true, true),
      Retire(true, true, Done, true, true);
    var s1 := Next(t, s0, add);
    var s2 := Next(t, s1, Join);
    var s3 := Next(t, s2, promote);
    var s4 := Next(t, s3, retire);
    AfterCons(t, s0, add, [Join, promote, retire]);
    AfterCons(t, s1, Join, [promote, retire]);
    AfterCons(t, s2, promote, [retire]);
    AfterCons(t, s3, retire, []);
    GetsLearner(t, s0, id);
    GetsJoined(t, s1);
    GetsPromoted(t, s2);
    GetsRetired(t, s3);
  }

  lemma {:induction false} AfterSnoc(t: Topology, s: Moment, actions: seq<Action>, action: Action)
    ensures After(t, s, actions + [action]) == Next(t, After(t, s, actions), action)
    decreases |actions|
  {
    if actions == [] {
      AfterCons(t, s, action, []);
    } else {
      assert (actions + [action])[1..] == actions[1..] + [action];
      AfterSnoc(t, Next(t, s, actions[0]), actions[1..], action);
    }
  }

  lemma AfterCons(t: Topology, s: Moment, action: Action, rest: seq<Action>)
    ensures After(t, s, [action] + rest) == After(t, Next(t, s, action), rest)
  {
    assert ([action] + rest)[1..] == rest;
  }

  /** Four voters, or the new ones already. */
  ghost predicate FullVoters(t: Topology, ms: seq<Member>) { At(t, FourVoters, ms) || At(t, NewVoters, ms) }

  /** The joining member is there; if as a learner only, then under its name. */
  ghost predicate HasJoined(t: Topology, ms: seq<Member>) {
    FullVoters(t, ms) || (At(t, WithLearner, ms) && Entry(t.joining, [t.joiningUrl], true) in Entries(ms))
  }

  lemma GetsLearner(t: Topology, s: Moment, id: nat)
    requires Reviewed(t) && Known(t, s.members) && Unused(s.members, id)
    ensures var s' := Next(t, s, Add(id, true, true, Done, true));
            && (At(t, WithLearner, s'.members) || FullVoters(t, s'.members))
            && s'.files == s.files && s'.published == s.published
  {
    AddMoves(t, s.members, id);
  }

  lemma GetsJoined(t: Topology, s: Moment)
    requires Reviewed(t) && (At(t, WithLearner, s.members) || FullVoters(t, s.members))
    ensures HasJoined(t, Next(t, s, Join).members)
  {
    JoinMoves(t, s.members);
  }

  lemma GetsPromoted(t: Topology, s: Moment)
    requires Reviewed(t) && HasJoined(t, s.members)
    ensures var s' := Next(t, s, Promote(true, Done, true, true));
            FullVoters(t, s'.members) && s'.files == s.files && s'.published == s.published
  {
    PromoteMoves(t, s.members);
  }

  lemma GetsRetired(t: Topology, s: Moment)
    requires Reviewed(t) && FullVoters(t, s.members)
    ensures var s' := Next(t, s, Retire(true, true, Done, true, true));
            At(t, NewVoters, s'.members) && s'.files == s.files && s'.published == s.published
  {
    RetireMoves(t, s.members);
  }

  /** Nothing leads out of the new membership. */
  lemma NewIsFinal(t: Topology, ms: seq<Member>, ms': seq<Member>)
    requires Reviewed(t) && At(t, NewVoters, ms) && Moves(t, ms, ms')
    ensures ms' == ms
  {
    if At(t, OldVoters, ms) { OnePhase(t, OldVoters, ms); }
    if At(t, WithLearner, ms) { OnePhase(t, WithLearner, ms); }
    if At(t, FourVoters, ms) { OnePhase(t, FourVoters, ms); }
  }
}
