/**
 The intent journal and the provisioning run that depends on it.

 `apply` creates every resource in three durable steps: record the intent, create the artifacts,
 record them as owned and clear the intent. The process may stop between any two steps, by a crash or
 by a refusal; what is on disk and in the outside world stays, what is in memory is lost.
 */
module Provisioning {
  import opened Wrappers

  datatype Kind = Pool | Network | Domain

  /** Files the provisioner owns. */
  datatype OwnedFile =
    | BaseImage | AdminKey | AdminPublic | HostKey(vm: string) | HostPublic(vm: string) | Disk(vm: string)
    | UserData(vm: string) | MetaData(vm: string) | NetworkConfig(vm: string) | Seed(vm: string) | KnownHosts
    | DefinitionXml(kind: Kind, name: string)

  datatype Artifact = GuardTable | PoolDirectory | FileAt(file: OwnedFile) | Definition(kind: Kind, name: string)

  /** The operations `apply` announces in the journal. */
  datatype Operation =
    | InstallGuard | CreatePoolDirectory | NormalizePoolMode | CopyImage | GenerateAdminKey
    | GenerateHostKey(vm: string)
    | CreateDisk(vm: string) | CreateSeed(vm: string) | PinHosts | Define(kind: Kind, name: string)

  /** What an operation creates, in order. */
  function Creates(op: Operation): seq<Artifact> {
    match op
    case InstallGuard => [GuardTable]
    case CreatePoolDirectory => [PoolDirectory]
    case NormalizePoolMode => []
    case CopyImage => [FileAt(BaseImage)]
    case GenerateAdminKey => [FileAt(AdminKey), FileAt(AdminPublic)]
    case GenerateHostKey(vm) => [FileAt(HostKey(vm)), FileAt(HostPublic(vm))]
    case CreateDisk(vm) => [FileAt(Disk(vm))]
    case CreateSeed(vm) => [FileAt(UserData(vm)), FileAt(MetaData(vm)), FileAt(NetworkConfig(vm)), FileAt(Seed(vm))]
    case PinHosts => [FileAt(KnownHosts)]
    case Define(kind, name) => [FileAt(DefinitionXml(kind, name)), Definition(kind, name)]
  }

  /** The journal entry whose presence makes a later run skip the operation. */
  function Probe(op: Operation): Option<Artifact> {
    match op
    case InstallGuard => Some(GuardTable)
    case CreatePoolDirectory => Some(PoolDirectory)
    case NormalizePoolMode => None
    case CopyImage => Some(FileAt(BaseImage))
    case GenerateAdminKey => Some(FileAt(AdminKey))
    case GenerateHostKey(vm) => Some(FileAt(HostKey(vm)))
    case CreateDisk(vm) => Some(FileAt(Disk(vm)))
    case CreateSeed(vm) => Some(FileAt(Seed(vm)))
    case PinHosts => Some(FileAt(KnownHosts))
    case Define(kind, name) => Some(Definition(kind, name))
  }

  /** One operation with what it creates and how a later run recognises it. */
  datatype Task = Task(op: Operation, probe: Option<Artifact>, creates: seq<Artifact>)

  function TaskOf(op: Operation): Task { Task(op, Probe(op), Creates(op)) }

  function TasksOf(ops: seq<Operation>): (tasks: seq<Task>)
    ensures |tasks| == |ops|
    ensures forall i :: 0 <= i < |ops| ==> tasks[i] == TaskOf(ops[i])
  {
    seq(|ops|, i requires 0 <= i < |ops| => TaskOf(ops[i]))
  }

  function GuestFiles(vms: seq<string>): seq<Operation> {
    if vms == [] then [] else [GenerateHostKey(vms[0]), CreateDisk(vms[0]), CreateSeed(vms[0])] + GuestFiles(vms[1..])
  }

  function GuestDomains(vms: seq<string>): seq<Operation> {
    if vms == [] then [] else [Define(Domain, vms[0])] + GuestDomains(vms[1..])
  }

  function Operations(name: string, vms: seq<string>): seq<Operation> {
    [InstallGuard] + [CreatePoolDirectory, NormalizePoolMode, CopyImage, GenerateAdminKey] + GuestFiles(vms)
    + [PinHosts, Define(Pool, name), Define(Network, name)] + GuestDomains(vms)
  }

  /** The order in which `apply` works. */
  function Plan(name: string, vms: seq<string>): seq<Task> { TasksOf(Operations(name, vms)) }

  const GUARD := Task(InstallGuard, Some(GuardTable), [GuardTable])

  /** All the run relies on: the guard comes first and no two operations create the same thing. */
  ghost predicate Sound(plan: seq<Task>) {
    && plan != [] && plan[0] == GUARD
    && (forall i :: 0 <= i < |plan| && plan[i].probe.Some? ==> plan[i].probe.value in plan[i].creates)
    && (forall i :: 0 <= i < |plan| && plan[i].creates != [] ==> plan[i].probe.Some?)
    && (forall i, j, a :: 0 <= i < |plan| && 0 <= j < |plan| && a in plan[i].creates && a in plan[j].creates ==>
      plan[i] == plan[j])
    && (forall t, i, j :: t in plan && 0 <= i < j < |t.creates| ==> t.creates[i] != t.creates[j])
  }

  lemma CreatesApart(a: Artifact, op1: Operation, op2: Operation)
    requires a in Creates(op1) && a in Creates(op2)
    ensures op1 == op2
  {
  }

  lemma CreatesDistinct(op: Operation, i: nat, j: nat)
    requires i < j < |Creates(op)|
    ensures Creates(op)[i] != Creates(op)[j]
  {
  }

  lemma PlanIsSound(name: string, vms: seq<string>)
    ensures Sound(Plan(name, vms))
  {
    var ops := Operations(name, vms);
    var plan := Plan(name, vms);
    assert ops[0] == InstallGuard;
    forall i, j, a | 0 <= i < |plan| && 0 <= j < |plan| && a in plan[i].creates && a in plan[j].creates
      ensures plan[i] == plan[j]
    {
      CreatesApart(a, ops[i], ops[j]);
    }
    forall t, i, j | t in plan && 0 <= i < j < |t.creates|
      ensures t.creates[i] != t.creates[j]
    {
      var k :| 0 <= k < |plan| && plan[k] == t;
      CreatesDistinct(ops[k], i, j);
    }
  }

  // ---------- the journal ----------

  /** `recorded` joins the journal's guard, pool directory, file and resource sections. */
  datatype JournalValue = JournalValue(pending: Option<Task>, recorded: set<Artifact>, ready: bool, bootVerified: bool)

  const EMPTY_JOURNAL := JournalValue(None, {}, false, false)

  function Announced(v: JournalValue, t: Task): JournalValue { v.(pending := Some(t)) }

  function Completed(v: JournalValue, t: Task): JournalValue {
    v.(pending := None, recorded := v.recorded + set a | a in t.creates)
  }

  function Outstanding(v: JournalValue): set<Artifact> {
    if v.pending.Some? then set a | a in v.pending.value.creates else {}
  }

  /** `value` is what the process holds; `durable` is what journal.json holds. */
  class Journal {
    var value: JournalValue
    var durable: JournalValue

    constructor (stored: JournalValue)
      ensures value == durable == stored
    {
      value, durable := stored, stored;
    }

    /** Written to a temporary file, synced and renamed into place. */
    method Save()
      modifies this
      ensures value == old(value) && durable == value
    {
      durable := value;
    }

    method Intent(t: Task) returns (ok: bool)
      modifies this
      ensures ok <==> old(value).pending.None?
      ensures ok ==> value == durable == Announced(old(value), t)
      ensures !ok ==> value == old(value) && durable == old(durable)
    {
      if value.pending.Some? {
        return false;
      }
      value := value.(pending := Some(t));
      Save();
      ok := true;
    }

    method Record(a: Artifact)
      modifies this
      ensures value == old(value).(recorded := old(value).recorded + {a}) && durable == old(durable)
    {
      value := value.(recorded := value.recorded + {a});
    }

    method Done()
      modifies this
      ensures value == durable == old(value).(pending := None)
    {
      value := value.(pending := None);
      Save();
    }

    /** The tail of every operation: record each artifact in memory, then clear the intent in one write. */
    method Complete(t: Task)
      modifies this
      ensures value == durable == Completed(old(value), t)
    {
      var created := t.creates;
      for i := 0 to |created|
        invariant durable == old(durable)
        invariant value == old(value).(recorded := old(value).recorded + set a | a in created[..i])
      {
        assert created[..i + 1] == created[..i] + [created[i]];
        Record(created[i]);
      }
      assert created[..|created|] == created;
      Done();
    }
  }

  // ---------- runs ----------

  datatype Stage = Between | Creating(count: nat)

  /** A stopped process holds nothing. */
  datatype Process = Stopped | Running(memory: JournalValue, next: nat, stage: Stage)

  /**
   Beside the journal's value, the state directory may lack the journal file (`journaled`) and may hold a
   temporary journal that a cut-off write left behind (`stray`). Starting a guest may rewrite its definition;
   `drifted` says that one differs from its recorded hash.
   */
  datatype State = State(durable: JournalValue, journaled: bool, stray: bool, world: set<Artifact>,
                         guests: set<string>, drifted: bool, process: Process)

  const FRESH := State(EMPTY_JOURNAL, false, false, {}, {}, false, Stopped)

  /**
   Everything that can happen. An action whose guard fails is a refusal: it stops the process and
   changes nothing else.
   */
  datatype Action =
    | Open            // an ordinary run takes the lock and reads the journal, or writes the first one
    | Skip            // the operation is already recorded
    | Announce        // write the intent
    | Create          // the next artifact of the announced operation comes into existence
    | Finish          // record and clear the intent
    | MarkReady
    | BeginBoot       // first boot withdraws the last verdict
    | StartGuest(vm: string, rewrites: bool)
    | RecordGuest     // the definition hash of the guest just started
    | VerifyBoot      // every guest runs and answers
    | StopGuest(vm: string)
    | Crash
    | TornSave        // the process stops after writing the temporary journal and before renaming it
    | Reboot          // kernel tables and running guests are gone
    | RecoverGuard    // the separate command that adopts an interrupted guard installation

  predicate Recorded(v: JournalValue, t: Task) {
    t.probe.Some? && t.probe.value in v.recorded
  }

  /** `ensure_guard` installs again only when the table is gone and every guest is stopped. */
  predicate MayAnnounce(s: State, t: Task)
    requires s.process.Running?
  {
    && s.process.memory.pending.None?
    && (if t == GUARD then
          GuardTable !in s.world && (Recorded(s.process.memory, t) ==> s.guests == {})
        else !Recorded(s.process.memory, t))
  }

  predicate MaySkip(s: State, t: Task)
    requires s.process.Running?
  {
    if t == GUARD then Recorded(s.process.memory, t) && GuardTable in s.world
    else Recorded(s.process.memory, t) || t.creates == []
  }

  /** Files and directories are created exclusively; definitions only under a verified guard. */
  predicate MayCreate(s: State, a: Artifact) {
    a !in s.world && (a.Definition? ==> GuardTable in s.world)
  }

  predicate MayRecover(s: State) {
    && s.process.Stopped?
    && s.durable.pending == Some(GUARD)
    && s.durable.recorded == {} && !s.durable.ready && !s.durable.bootVerified && !s.stray
    && GuardTable in s.world
  }

  /** A run that has got through the plan and marked it ready. */
  predicate Booting(plan: seq<Task>, s: State) {
    && s.process.Running? && s.process.stage == Between && s.process.next == |plan| && s.process.memory.ready
    && !s.drifted
  }

  /** A journal is being written only between operations and at the end of one. */
  predicate MaySave(plan: seq<Task>, s: State) {
    match s.process
    case Stopped => (!s.journaled && !s.stray && s.durable.pending.None?) || MayRecover(s)
    case Running(_, next, stage) => stage == Between || (next < |plan| && stage.count == |plan[next].creates|)
  }

  function Saved(s: State, value: JournalValue): State
    requires s.process.Running?
  {
    s.(durable := value, process := s.process.(memory := value))
  }

  function Refuse(s: State): State { s.(process := Stopped) }

  function Next(plan: seq<Task>, s: State, action: Action): State {
    match action
    case Open =>
      if s.process.Stopped? && s.durable.pending.None? && (s.journaled || !s.stray) && !s.drifted
      then s.(journaled := true, process := Running(s.durable, 0, Between)) else s
    case Skip =>
      if s.process.Running? && s.process.stage == Between && s.process.next < |plan| && MaySkip(s, plan[s.process.next])
      then s.(process := s.process.(next := s.process.next + 1))
      else Refuse(s)
    case Announce =>
      if s.process.Running? && s.process.stage == Between && s.process.next < |plan|
         && MayAnnounce(s, plan[s.process.next])
      then
        var value := Announced(s.process.memory, plan[s.process.next]);
        s.(durable := value, process := Running(value, s.process.next, Creating(0)))
      else Refuse(s)
    case Create =>
      if s.process.Running? && s.process.stage.Creating? && s.process.next < |plan|
         && s.process.stage.count < |plan[s.process.next].creates|
         && MayCreate(s, plan[s.process.next].creates[s.process.stage.count])
      then s.(world := s.world + {plan[s.process.next].creates[s.process.stage.count]},
              process := s.process.(stage := Creating(s.process.stage.count + 1)))
      else Refuse(s)
    case Finish =>
      if s.process.Running? && s.process.stage.Creating? && s.process.next < |plan|
         && s.process.stage.count == |plan[s.process.next].creates|
      then
        var value := Completed(s.process.memory, plan[s.process.next]);
        s.(durable := value, process := Running(value, s.process.next + 1, Between))
      else Refuse(s)
    case MarkReady =>
      if s.process.Running? && s.process.stage == Between && s.process.next == |plan| && !s.drifted
      then Saved(s, s.process.memory.(ready := true)) else Refuse(s)
    case BeginBoot =>
      if Booting(plan, s) then Saved(s, s.process.memory.(bootVerified := false)) else Refuse(s)
    case VerifyBoot =>
      if Booting(plan, s) && GuardTable in s.world
         && (forall a | a in s.process.memory.recorded && a.Definition? && a.kind == Domain :: a.name in s.guests)
      then Saved(s, s.process.memory.(bootVerified := true)) else Refuse(s)
    case StartGuest(vm, rewrites) =>
      if Booting(plan, s) && Definition(Domain, vm) in s.process.memory.recorded && GuardTable in s.world
      then s.(guests := s.guests + {vm}, drifted := rewrites)
      else Refuse(s)
    case RecordGuest => if s.process.Running? then s.(drifted := false) else s
    case StopGuest(vm) => s.(guests := s.guests - {vm})
    case Crash => s.(process := Stopped)
    case TornSave => if MaySave(plan, s) then s.(stray := true, process := Stopped) else s.(process := Stopped)
    case Reboot => s.(world := s.world - {GuardTable}, guests := {}, process := Stopped)
    case RecoverGuard =>
      if MayRecover(s) then s.(durable := Completed(s.durable, GUARD)) else s
  }

  /** The state after a schedule of actions. */
  function After(plan: seq<Task>, s: State, actions: seq<Action>): State
    decreases |actions|
  {
    if actions == [] then s else After(plan, Next(plan, s, actions[0]), actions[1..])
  }

  // ---------- what every step keeps ----------

  /** Every artifact of the operation is recorded. */
  ghost predicate Settled(v: JournalValue, t: Task) {
    forall a :: a in t.creates ==> a in v.recorded
  }

  ghost predicate Accounted(s: State) {
    s.world <= s.durable.recorded + Outstanding(s.durable)
  }

  /** While an operation is under way, exactly the artifacts counted so far exist. */
  ghost predicate Underway(s: State, t: Task, count: nat) {
    && s.durable.pending == Some(t)
    && count <= |t.creates|
    && (forall i :: 0 <= i < count ==> t.creates[i] in s.world)
    && (forall i :: count <= i < |t.creates| ==> t.creates[i] !in s.world - s.durable.recorded)
  }

  ghost predicate ProcessAgrees(plan: seq<Task>, s: State) {
    s.process.Running? ==>
      && s.process.memory == s.durable
      && s.process.next <= |plan|
      && (forall i :: 0 <= i < s.process.next ==> Settled(s.durable, plan[i]))
      && (s.process.next > 0 ==> GuardTable in s.world)
      && (s.process.stage == Between ==> s.durable.pending.None?)
      && (s.process.stage.Creating? ==>
        s.process.next < |plan| && Underway(s, plan[s.process.next], s.process.stage.count))
  }

  /** Nothing is recorded that was not created by the plan; only the kernel's table can disappear again. */
  ghost predicate RecordsAreReal(plan: seq<Task>, s: State) {
    forall a :: a in s.durable.recorded ==>
      (a != GuardTable ==> a in s.world) && exists i :: 0 <= i < |plan| && a in plan[i].creates
  }

  /** An operation is recorded as a whole or not at all. */
  ghost predicate RecordedWhole(plan: seq<Task>, v: JournalValue) {
    forall i, a :: 0 <= i < |plan| && a in plan[i].creates && a in v.recorded ==> Settled(v, plan[i])
  }

  /** The guard comes first and outlasts every running guest. */
  ghost predicate Guarded(s: State) {
    && (s.guests != {} ==> GuardTable in s.world)
    && (forall a :: a in s.world && a.Definition? ==> GuardTable in s.durable.recorded)
  }

  /** What holds of the journal and the world, whether a process runs or not. */
  ghost predicate Books(plan: seq<Task>, s: State) {
    && Accounted(s) && RecordsAreReal(plan, s) && RecordedWhole(plan, s.durable) && Guarded(s)
    && (s.durable.pending.Some? ==> s.durable.pending.value in plan)
    && (s.durable.ready ==> forall i :: 0 <= i < |plan| ==> Settled(s.durable, plan[i]))
    && (s.durable.bootVerified || s.drifted ==> s.durable.ready)
    && (!s.journaled ==> s.durable == EMPTY_JOURNAL && s.process.Stopped?)
  }

  ghost predicate Invariant(plan: seq<Task>, s: State) { Books(plan, s) && ProcessAgrees(plan, s) }

  lemma CompletedWhole(plan: seq<Task>, v: JournalValue, t: Task)
    requires Sound(plan) && RecordedWhole(plan, v) && t in plan
    ensures RecordedWhole(plan, Completed(v, t))
  {
    var w := Completed(v, t);
    forall i, a | 0 <= i < |plan| && a in plan[i].creates && a in w.recorded
      ensures Settled(w, plan[i])
    {
      if a in v.recorded {
        assert Settled(v, plan[i]);
      } else {
        var k :| 0 <= k < |plan| && plan[k] == t;
        assert a in plan[k].creates;
        assert plan[i] == plan[k];
      }
    }
  }

  lemma StepAnnounce(plan: seq<Task>, s: State)
    requires Sound(plan) && Invariant(plan, s)
    ensures Invariant(plan, Next(plan, s, Announce))
  {
    AnnounceAgrees(plan, s);
    if s.process.Running? && s.process.next < |plan| { assert plan[s.process.next] in plan; }
  }

  lemma AnnounceAgrees(plan: seq<Task>, s: State)
    requires Invariant(plan, s)
    ensures ProcessAgrees(plan, Next(plan, s, Announce))
  {
    var s' := Next(plan, s, Announce);
    if s'.process.Running? {
      assert Underway(s', plan[s.process.next], 0) by {
        assert Outstanding(s.durable) == {};
      }
    }
  }

  lemma StepCreate(plan: seq<Task>, s: State)
    requires Sound(plan) && Invariant(plan, s)
    ensures Invariant(plan, Next(plan, s, Create))
  {
    CreateAgrees(plan, s);
    var s' := Next(plan, s, Create);
    if s'.process.Running? {
      var a := plan[s.process.next].creates[s.process.stage.count];
      assert a in Outstanding(s.durable);
      if a.Definition? {
        GuardIsAccounted(plan, s);
      }
    }
  }

  lemma CreateAgrees(plan: seq<Task>, s: State)
    requires Sound(plan) && Invariant(plan, s)
    ensures ProcessAgrees(plan, Next(plan, s, Create))
  {
    var s' := Next(plan, s, Create);
    if s'.process.Running? {
      var t, count := plan[s.process.next], s.process.stage.count;
      assert Underway(s', t, count + 1) by {
        assert t in plan;
      }
    }
  }

  /** A standing guard is recorded unless it is the operation under way. */
  lemma GuardIsAccounted(plan: seq<Task>, s: State)
    requires Sound(plan) && Invariant(plan, s) && GuardTable in s.world
    requires s.process.Running? && s.process.stage.Creating?
    ensures GuardTable in s.durable.recorded || plan[s.process.next] == GUARD
  {
    if GuardTable !in s.durable.recorded {
      assert GuardTable in plan[s.process.next].creates && GuardTable in plan[0].creates;
    }
  }

  lemma StepFinish(plan: seq<Task>, s: State)
    requires Sound(plan) && Invariant(plan, s)
    ensures Invariant(plan, Next(plan, s, Finish))
  {
    if Next(plan, s, Finish).process.Running? {
      var t := plan[s.process.next];
      assert t in plan && plan[0].creates == [GuardTable];
      CompletedWhole(plan, s.durable, t);
      FinishKeeps(plan, s, t);
    }
  }

  lemma FinishKeeps(plan: seq<Task>, s: State, t: Task)
    requires Invariant(plan, s) && s.process.Running? && s.process.stage == Creating(|t.creates|)
    requires s.process.next < |plan| && t == plan[s.process.next] && plan[0].creates == [GuardTable]
    requires RecordedWhole(plan, Completed(s.durable, t))
    ensures var w := Completed(s.durable, t);
            Invariant(plan, s.(durable := w, process := Running(w, s.process.next + 1, Between)))
  {
    CompletedIsReal(plan, s, t);
    CompletedSettles(plan, s.durable, t);
    FinishAccounts(s, t);
  }

  lemma CompletedSettles(plan: seq<Task>, v: JournalValue, t: Task)
    ensures Settled(Completed(v, t), t)
    ensures forall i :: 0 <= i < |plan| && Settled(v, plan[i]) ==> Settled(Completed(v, t), plan[i])
  {
  }

  lemma FinishAccounts(s: State, t: Task)
    requires Accounted(s) && Guarded(s) && s.durable.pending == Some(t)
    ensures var s' := s.(durable := Completed(s.durable, t)); Accounted(s') && Guarded(s')
  {
    assert Outstanding(s.durable) <= Completed(s.durable, t).recorded;
  }

  lemma CompletedIsReal(plan: seq<Task>, s: State, t: Task)
    requires RecordsAreReal(plan, s) && t in plan && Underway(s, t, |t.creates|)
    ensures RecordsAreReal(plan, s.(durable := Completed(s.durable, t)))
  {
    var k :| 0 <= k < |plan| && plan[k] == t;
    forall a | a in Completed(s.durable, t).recorded
      ensures (a != GuardTable ==> a in s.world) && exists i :: 0 <= i < |plan| && a in plan[i].creates
    {
      if a !in s.durable.recorded {
        assert a in plan[k].creates;
      }
    }
  }

  lemma StepRecover(plan: seq<Task>, s: State)
    requires Sound(plan) && Invariant(plan, s)
    ensures Invariant(plan, Next(plan, s, RecoverGuard))
  {
    if MayRecover(s) {
      assert plan[0] in plan;
      CompletedWhole(plan, s.durable, GUARD);
      assert GuardTable in plan[0].creates;
    }
  }

  lemma StepOpen(plan: seq<Task>, s: State)
    requires Sound(plan) && Invariant(plan, s)
    ensures Invariant(plan, Next(plan, s, Open))
  {
  }

  lemma StepSkip(plan: seq<Task>, s: State)
    requires Sound(plan) && Invariant(plan, s)
    ensures Invariant(plan, Next(plan, s, Skip))
  {
    var s' := Next(plan, s, Skip);
    if s'.process.Running? {
      var t := plan[s.process.next];
      assert Recorded(s.durable, t) ==> t.probe.value in plan[s.process.next].creates;
      assert Settled(s.durable, t);
    }
  }

  lemma StepSave(plan: seq<Task>, s: State, action: Action)
    requires Invariant(plan, s) && (action.MarkReady? || action.BeginBoot? || action.VerifyBoot?)
    ensures Invariant(plan, Next(plan, s, action))
  {
    var s' := Next(plan, s, action);
    if s'.process.Running? { SavedKeeps(plan, s, s'.durable); }
  }

  /** Saving other verdicts changes nothing else. */
  lemma SavedKeeps(plan: seq<Task>, s: State, v: JournalValue)
    requires Invariant(plan, s) && s.process.Running? && s.process.next == |plan|
    requires v == s.durable.(ready := true, bootVerified := v.bootVerified)
    ensures Invariant(plan, Saved(s, v))
  {
  }

  /** Guests, crashes and reboots leave the journal alone. */
  lemma StepOutside(plan: seq<Task>, s: State, action: Action)
    requires Invariant(plan, s)
             && (action.StartGuest? || action.RecordGuest? || action.StopGuest? || action.Crash? || action.TornSave?
               || action.Reboot?)
    ensures Invariant(plan, Next(plan, s, action))
  {
  }

  lemma StepKeeps(plan: seq<Task>, s: State, action: Action)
    requires Sound(plan) && Invariant(plan, s)
    ensures Invariant(plan, Next(plan, s, action))
  {
    match action {
      case Announce => StepAnnounce(plan, s);
      case Create => StepCreate(plan, s);
      case Finish => StepFinish(plan, s);
      case RecoverGuard => StepRecover(plan, s);
      case Skip => StepSkip(plan, s);
      case Open => StepOpen(plan, s);
      case MarkReady => StepSave(plan, s, action);
      case BeginBoot => StepSave(plan, s, action);
      case VerifyBoot => StepSave(plan, s, action);
      case StartGuest(_, _) => StepOutside(plan, s, action);
      case RecordGuest => StepOutside(plan, s, action);
      case StopGuest(_) => StepOutside(plan, s, action);
      case Crash => StepOutside(plan, s, action);
      case TornSave => StepOutside(plan, s, action);
      case Reboot => StepOutside(plan, s, action);
    }
  }

  lemma {:induction false} RunKeeps(plan: seq<Task>, s: State, actions: seq<Action>)
    requires Sound(plan) && Invariant(plan, s)
    ensures Invariant(plan, After(plan, s, actions))
    decreases |actions|
  {
    if actions != [] {
      StepKeeps(plan, s, actions[0]);
      RunKeeps(plan, Next(plan, s, actions[0]), actions[1..]);
    }
  }

  // ---------- main results ----------

  /**
   After any schedule, everything that was created is recorded or covered by the one pending intent, save a
   temporary journal; a guest runs, is defined and counts as booted only under what that needs.
   */
  lemma NothingUnaccounted(name: string, vms: seq<string>, actions: seq<Action>)
    ensures var s := After(Plan(name, vms), FRESH, actions);
            && s.world <= s.durable.recorded + Outstanding(s.durable)
            && (forall a :: a in s.durable.recorded && a != GuardTable ==> a in s.world)
            && (s.guests != {} ==> GuardTable in s.world)
            && (forall a :: a in s.world && a.Definition? ==> GuardTable in s.durable.recorded)
            && (s.durable.bootVerified ==> s.durable.ready && AllArtifacts(Plan(name, vms)) <= s.durable.recorded)
  {
    PlanIsSound(name, vms);
    RunKeeps(Plan(name, vms), FRESH, actions);
  }

  predicate IsOrdinary(action: Action) { action != RecoverGuard }

  /** A stopped run that left an intent behind freezes everything: no later ordinary run has any effect. */
  lemma {:induction false} PendingFreezes(plan: seq<Task>, s: State, actions: seq<Action>)
    requires s.process.Stopped? && s.durable.pending.Some?
    requires forall i :: 0 <= i < |actions| ==> IsOrdinary(actions[i])
    ensures var s' := After(plan, s, actions);
            && s'.durable == s.durable && s'.process.Stopped?
            && s'.world <= s.world && s.world - s'.world <= {GuardTable} && s'.guests <= s.guests
    decreases |actions|
  {
    if actions != [] {
      assert IsOrdinary(actions[0]);
      var s1 := Next(plan, s, actions[0]);
      assert s1.process.Stopped? && s1.durable == s.durable;
      PendingFreezes(plan, s1, actions[1..]);
    }
  }

  /** `recover-guard` adopts a guard only when nothing else was ever created, and only the exact pending one. */
  lemma RecoveryAdoptsOnlyTheGuard(name: string, vms: seq<string>, actions: seq<Action>)
    ensures var plan := Plan(name, vms);
            var s := After(plan, FRESH, actions);
            var s' := Next(plan, s, RecoverGuard);
            MayRecover(s) ==>
              && s.world == {GuardTable} && s'.world == s.world
              && s'.durable == EMPTY_JOURNAL.(recorded := {GuardTable})
  {
    PlanIsSound(name, vms);
    RunKeeps(Plan(name, vms), FRESH, actions);
  }

  // ---------- which interruptions can be recovered ----------

  lemma {:induction false} AfterConcat(plan: seq<Task>, s: State, a: seq<Action>, b: seq<Action>)
    ensures After(plan, s, a + b) == After(plan, After(plan, s, a), b)
    decreases |a|
  {
    if a == [] {
      assert a + b == b;
    } else {
      assert (a + b)[1..] == a[1..] + b;
      AfterConcat(plan, Next(plan, s, a[0]), a[1..], b);
    }
  }

  lemma AfterOne(plan: seq<Task>, s: State, action: Action)
    ensures After(plan, s, [action]) == Next(plan, s, action)
  {
    assert [action][1..] == [];
  }

  /**
   What a stopped state must be for any later run to get anywhere: no intent is pending, the state directory is
   readable and every definition is as recorded, or the pending intent is one `recover-guard` accepts.
   */
  predicate Continuable(s: State) {
    (s.durable.pending.None? && (s.journaled || !s.stray) && !s.drifted) || MayRecover(s)
  }

  /** Otherwise the journal stays as it is and no run ever gets under way again. */
  lemma {:induction false} DeadEnd(plan: seq<Task>, s: State, actions: seq<Action>)
    requires s.process.Stopped? && !Continuable(s)
    ensures After(plan, s, actions).durable == s.durable && After(plan, s, actions).process.Stopped?
    decreases |actions|
  {
    if actions != [] {
      var s1 := Next(plan, s, actions[0]);
      assert s1.durable == s.durable && s1.process.Stopped? && !Continuable(s1);
      DeadEnd(plan, s1, actions[1..]);
    }
  }

  /** An interrupted operation can be cleared by some schedule if and only if `recover-guard` accepts it right now. */
  lemma PendingIsClearable(plan: seq<Task>, s: State)
    requires s.process.Stopped? && s.durable.pending.Some?
    ensures (exists actions :: After(plan, s, actions).durable.pending.None?) <==> MayRecover(s)
  {
    if MayRecover(s) {
      AfterOne(plan, s, RecoverGuard);
    } else {
      forall actions
        ensures After(plan, s, actions).durable.pending.Some?
      {
        DeadEnd(plan, s, actions);
      }
    }
  }

  /** From the fresh state: the guard installed, lost in a reboot, and its second installation cut off. */
  const REINSTALLED := [Open, Announce, Create, Finish, Reboot, Open, Announce, Crash]

  /**
   An intent to install the guard a second time is reached from the fresh state, and never cleared by any schedule.
   */
  lemma ReinstallationIsNotRecoverable(name: string, vms: seq<string>, actions: seq<Action>)
    ensures var plan := Plan(name, vms);
            var s := After(plan, FRESH, REINSTALLED);
            && s.process.Stopped? && s.durable.pending == Some(GUARD) && s.durable.recorded == {GuardTable}
            && After(plan, s, actions).durable == s.durable
  {
    var plan := Plan(name, vms);
    PlanIsSound(name, vms);
    var s1 := InstallsGuard(plan, FRESH);
    var first, second := [Open, Announce, Create, Finish], [Reboot, Open, Announce, Crash];
    assert REINSTALLED == first + second;
    AfterConcat(plan, FRESH, first, second);
    var s2 := LosesGuard(plan, s1);
    DeadEnd(plan, s2, actions);
  }

  lemma LosesGuard(plan: seq<Task>, s: State) returns (s': State)
    requires Sound(plan) && s.journaled && s.durable == EMPTY_JOURNAL.(recorded := {GuardTable}) && s.guests == {}
             && !s.drifted
    ensures s' == After(plan, s, [Reboot, Open, Announce, Crash])
    ensures s'.process.Stopped? && s'.durable == Announced(s.durable, GUARD)
  {
    AfterFour(plan, s, Reboot, Open, Announce, Crash);
    s' := Next(plan, Next(plan, Next(plan, Next(plan, s, Reboot), Open), Announce), Crash);
  }

  lemma InstallsGuard(plan: seq<Task>, s: State) returns (s': State)
    requires Sound(plan) && s == FRESH
    ensures s' == After(plan, s, [Open, Announce, Create, Finish])
    ensures s'.journaled && s'.durable == EMPTY_JOURNAL.(recorded := {GuardTable}) && s'.world == {GuardTable}
            && s'.guests == {} && !s'.drifted
  {
    AfterFour(plan, s, Open, Announce, Create, Finish);
    s' := Next(plan, Next(plan, Next(plan, Next(plan, s, Open), Announce), Create), Finish);
    assert s'.durable.recorded == {GuardTable};
  }

  lemma AfterFour(plan: seq<Task>, s: State, a: Action, b: Action, c: Action, d: Action)
    ensures After(plan, s, [a, b, c, d]) == Next(plan, Next(plan, Next(plan, Next(plan, s, a), b), c), d)
  {
    AfterTwo(plan, s, a, b, [c, d]);
    AfterTwo(plan, Next(plan, Next(plan, s, a), b), c, d, []);
    assert [c, d] + [] == [c, d];
  }

  lemma AfterTwo(plan: seq<Task>, s: State, a: Action, b: Action, rest: seq<Action>)
    ensures After(plan, s, [a, b] + rest) == After(plan, Next(plan, Next(plan, s, a), b), rest)
  {
    var all := [a, b] + rest;
    assert all[1..][1..] == rest;
    assert After(plan, s, all) == After(plan, Next(plan, s, a), all[1..]);
  }

  /** A first journal write that is cut off is a dead end from the fresh state: no schedule starts a run. */
  lemma TornFirstSaveIsFinal(plan: seq<Task>, actions: seq<Action>)
    ensures var s := After(plan, FRESH, [TornSave]);
            s.stray && !s.journaled && After(plan, s, actions).process.Stopped?
  {
    AfterOne(plan, FRESH, TornSave);
    DeadEnd(plan, Next(plan, FRESH, TornSave), actions);
  }

  // ---------- every other state can be completed ----------

  ghost predicate AtOperation(plan: seq<Task>, s: State, next: nat) {
    Invariant(plan, s) && s.process.Running? && s.process.stage == Between && s.process.next == next && !s.drifted
  }

  /** The announced operation's artifacts that are still to come do not exist yet, and definitions have their guard. */
  ghost predicate Clear(plan: seq<Task>, s: State, count: nat) {
    && Invariant(plan, s) && !s.drifted
    && s.process.Running? && s.process.next < |plan| && s.process.stage == Creating(count)
    && var t := plan[s.process.next];
       && (forall i :: count <= i < |t.creates| ==> t.creates[i] !in s.world)
       && (t == GUARD || GuardTable in s.world)
  }

  lemma CreatesOne(plan: seq<Task>, s: State, count: nat)
    requires Sound(plan) && Clear(plan, s, count) && count < |plan[s.process.next].creates|
    ensures var s' := Next(plan, s, Create);
            Clear(plan, s', count + 1) && s'.process.next == s.process.next
  {
    var t := plan[s.process.next];
    assert t in plan;
    StepKeeps(plan, s, Create);
    assert Next(plan, s, Create).world == s.world + {t.creates[count]};
  }

  lemma {:induction false} CreatesRest(plan: seq<Task>, s: State, count: nat) returns (actions: seq<Action>)
    requires Sound(plan) && Clear(plan, s, count) && count <= |plan[s.process.next].creates|
    ensures AtOperation(plan, After(plan, s, actions), s.process.next + 1)
    decreases |plan[s.process.next].creates| - count
  {
    var t := plan[s.process.next];
    assert t in plan;
    if count == |t.creates| {
      actions := [Finish];
      AfterOne(plan, s, Finish);
      StepKeeps(plan, s, Finish);
    } else {
      CreatesOne(plan, s, count);
      var rest := CreatesRest(plan, Next(plan, s, Create), count + 1);
      actions := [Create] + rest;
      AfterOne(plan, s, Create);
      AfterConcat(plan, s, [Create], rest);
    }
  }

  /** A run that stands before an operation can get past it. */
  lemma Advances(plan: seq<Task>, s: State, next: nat) returns (actions: seq<Action>)
    requires Sound(plan) && AtOperation(plan, s, next) && next < |plan|
    ensures AtOperation(plan, After(plan, s, actions), next + 1)
  {
    var t := plan[next];
    assert t in plan;
    if MaySkip(s, t) {
      actions := [Skip];
      AfterOne(plan, s, Skip);
      StepKeeps(plan, s, Skip);
    } else {
      NotYetMade(plan, s, next);
      var s1 := Next(plan, s, Announce);
      StepKeeps(plan, s, Announce);
      var rest := CreatesRest(plan, s1, 0);
      actions := [Announce] + rest;
      AfterOne(plan, s, Announce);
      AfterConcat(plan, s, [Announce], rest);
    }
  }

  lemma NotYetMade(plan: seq<Task>, s: State, next: nat)
    requires Sound(plan) && AtOperation(plan, s, next) && next < |plan| && !MaySkip(s, plan[next])
    ensures MayAnnounce(s, plan[next]) && forall i :: 0 <= i < |plan[next].creates| ==>
              plan[next].creates[i] !in s.world
    ensures plan[next] == GUARD || GuardTable in s.world
  {
    var t := plan[next];
    assert Outstanding(s.durable) == {};
    if t == GUARD {
      assert GuardTable in plan[next].creates;
      assert GuardTable in s.world ==> Recorded(s.process.memory, t);
    } else {
      forall a | a in t.creates
        ensures a !in s.durable.recorded
      {
        RecordedByProbe(plan, s.durable, next, a);
      }
    }
  }

  lemma RecordedByProbe(plan: seq<Task>, v: JournalValue, i: nat, a: Artifact)
    requires Sound(plan) && RecordedWhole(plan, v) && i < |plan| && a in plan[i].creates
    ensures a in v.recorded ==> Recorded(v, plan[i])
  {
    if a in v.recorded {
      assert Settled(v, plan[i]);
      assert plan[i].probe.value in plan[i].creates;
    }
  }

  ghost predicate GotThrough(plan: seq<Task>, s: State) {
    s.process.Running? && s.process.stage == Between && s.process.next == |plan| && !s.drifted
  }

  lemma {:induction false} CompletesFrom(plan: seq<Task>, s: State, next: nat) returns (actions: seq<Action>)
    requires Sound(plan) && AtOperation(plan, s, next)
    ensures GotThrough(plan, After(plan, s, actions))
    decreases |plan| - next
  {
    if next == |plan| {
      actions := [];
    } else {
      var first := Advances(plan, s, next);
      var rest := CompletesFrom(plan, After(plan, s, first), next + 1);
      actions := first + rest;
      AfterConcat(plan, s, first, rest);
    }
  }

  lemma Completes(plan: seq<Task>, s: State) returns (actions: seq<Action>)
    requires Sound(plan) && Invariant(plan, s) && s.process.Stopped? && Continuable(s)
    ensures GotThrough(plan, After(plan, s, actions))
  {
    var opening := if MayRecover(s) then [RecoverGuard, Open] else [Open];
    if MayRecover(s) {
      var s1 := Next(plan, s, RecoverGuard);
      AfterTwo(plan, s, RecoverGuard, Open, []);
      assert [RecoverGuard, Open] + [] == [RecoverGuard, Open];
    } else {
      AfterOne(plan, s, Open);
    }
    RunKeeps(plan, s, opening);
    var rest := CompletesFrom(plan, After(plan, s, opening), 0);
    actions := opening + rest;
    AfterConcat(plan, s, opening, rest);
  }

  /** Some later schedule gets a run through the whole plan. */
  ghost predicate Completable(plan: seq<Task>, s: State) { exists more :: GotThrough(plan, After(plan, s, more)) }

  lemma CompletableIffContinuable(plan: seq<Task>, s: State)
    requires Sound(plan) && Invariant(plan, s) && s.process.Stopped?
    ensures Completable(plan, s) <==> Continuable(s)
  {
    if Continuable(s) {
      var more := Completes(plan, s);
      assert GotThrough(plan, After(plan, s, more));
    } else {
      forall more
        ensures !GotThrough(plan, After(plan, s, more))
      {
        DeadEnd(plan, s, more);
      }
    }
  }

  /**
   After any schedule that has stopped: some later schedule gets a run through the whole plan if and only if nothing
   is pending, the directory is readable and no definition has drifted, or the pending intent is the first guard
   installation, still standing with nothing else beside it.
   */
  lemma CompletableExactly(name: string, vms: seq<string>, actions: seq<Action>)
    ensures var plan := Plan(name, vms);
            var s := After(plan, FRESH, actions);
            s.process.Stopped? ==> (Completable(plan, s) <==> Continuable(s))
  {
    var plan := Plan(name, vms);
    PlanIsSound(name, vms);
    RunKeeps(plan, FRESH, actions);
    if After(plan, FRESH, actions).process.Stopped? {
      CompletableIffContinuable(plan, After(plan, FRESH, actions));
    }
  }

  /**
   A first boot that stops between starting a guest and recording its new definition is reached from the fresh state,
   and no later run ever gets under way.
   */
  lemma UnrecordedDefinitionIsFinal(name: string, vms: seq<string>, vm: string) returns (actions: seq<Action>)
    requires vm in vms
    ensures var plan := Plan(name, vms);
            var s := After(plan, FRESH, actions);
            && s.process.Stopped? && s.durable.pending.None? && s.durable.ready && s.drifted
            && forall more :: After(plan, s, more).process.Stopped? && After(plan, s, more).durable == s.durable
  {
    var plan := Plan(name, vms);
    PlanIsSound(name, vms);
    var through := Completes(plan, FRESH);
    RunKeeps(plan, FRESH, through);
    var s0 := After(plan, FRESH, through);
    var boot := [MarkReady, StartGuest(vm, true), Crash];
    DomainIsPlanned(name, vms, vm);
    StopsBooting(plan, s0, vm);
    actions := through + boot;
    AfterConcat(plan, FRESH, through, boot);
    forall more
      ensures After(plan, After(plan, s0, boot), more).process.Stopped?
      ensures After(plan, After(plan, s0, boot), more).durable == After(plan, s0, boot).durable
    {
      DeadEnd(plan, After(plan, s0, boot), more);
    }
  }

  lemma StopsBooting(plan: seq<Task>, s: State, vm: string)
    requires Sound(plan) && Invariant(plan, s) && GotThrough(plan, s) && !s.drifted
    requires exists i :: 0 <= i < |plan| && Definition(Domain, vm) in plan[i].creates
    ensures var s' := After(plan, s, [MarkReady, StartGuest(vm, true), Crash]);
            s'.process.Stopped? && s'.durable.pending.None? && s'.durable.ready && s'.drifted
  {
    var i :| 0 <= i < |plan| && Definition(Domain, vm) in plan[i].creates;
    assert Settled(s.durable, plan[i]);
    var s1 := Next(plan, s, MarkReady);
    AfterTwo(plan, s, MarkReady, StartGuest(vm, true), [Crash]);
    AfterOne(plan, Next(plan, s1, StartGuest(vm, true)), Crash);
    assert [MarkReady, StartGuest(vm, true)] + [Crash] == [MarkReady, StartGuest(vm, true), Crash];
  }

  lemma DomainIsPlanned(name: string, vms: seq<string>, vm: string)
    requires vm in vms
    ensures exists i :: 0 <= i < |Plan(name, vms)| && Definition(Domain, vm) in Plan(name, vms)[i].creates
  {
    GuestIsDefined(vms, vm);
    var ops := Operations(name, vms);
    assert Define(Domain, vm) in ops;
    var i :| 0 <= i < |ops| && ops[i] == Define(Domain, vm);
    assert Plan(name, vms)[i].creates[1] == Definition(Domain, vm);
  }

  lemma {:induction false} GuestIsDefined(vms: seq<string>, vm: string)
    requires vm in vms
    ensures Define(Domain, vm) in GuestDomains(vms)
  {
    if vms[0] != vm { GuestIsDefined(vms[1..], vm); }
  }

  ghost function AllArtifacts(plan: seq<Task>): set<Artifact> {
    set i, a | 0 <= i < |plan| && a in plan[i].creates :: a
  }

  /**
   Interruptions leave no trace in the end: whenever a run gets through the plan, the journal records
   exactly the artifacts of the plan, however many runs it took.
   */
  lemma CompletionIsExact(name: string, vms: seq<string>, actions: seq<Action>)
    ensures var plan := Plan(name, vms);
            var s := After(plan, FRESH, actions);
            (s.process.Running? && s.process.next == |plan|) || s.durable.ready ==>
              s.durable.recorded == AllArtifacts(plan) && AllArtifacts(plan) - {GuardTable} <= s.world
  {
    var plan := Plan(name, vms);
    PlanIsSound(name, vms);
    RunKeeps(plan, FRESH, actions);
    var s := After(plan, FRESH, actions);
    if (s.process.Running? && s.process.next == |plan|) || s.durable.ready {
      forall a
        ensures a in s.durable.recorded <==> a in AllArtifacts(plan)
      {
        if a in AllArtifacts(plan) {
          var i :| 0 <= i < |plan| && a in plan[i].creates;
          assert Settled(s.durable, plan[i]);
        }
      }
    }
  }
}
