/**
 Adding an app disk to a running guest, interrupted anywhere, and `complete_readback`, which may only
 acknowledge what an interrupted run already did.
 */
module AppStorage {
  import opened Wrappers
  import Hotplug

  type Definition = Hotplug.Element

  /**
   What the run asks of others: the device to attach (`disk_xml`), the check of the result
   (`verify_addition`) and the hash of a definition.
   */
  datatype Tools = Tools(request: (string, Definition) -> Option<Definition>,
                         verify: (string, Definition, Definition) -> bool,
                         hash: Definition -> string)

  ghost predicate Sound(tools: Tools) {
    forall g, x :: !tools.verify(g, x, x)
  }

  ghost function HotplugTools(config: string -> Hotplug.Config, hash: Definition -> string): Tools {
    Tools((g, x) => Hotplug.RequestFor(x, config(g)), (g, x, y) => Hotplug.VerifyAddition(x, y, config(g)), hash)
  }

  /** The hotplug checks are sound: an unchanged definition is never taken for an addition. */
  lemma HotplugIsSound(config: string -> Hotplug.Config, hash: Definition -> string)
    ensures Sound(HotplugTools(config, hash))
  {
    var tools := HotplugTools(config, hash);
    forall g, x
      ensures !tools.verify(g, x, x)
    {
      if Hotplug.VerifyAddition(x, x, config(g)) {
        Hotplug.AdditionGrows(x, x, config(g));
      }
    }
  }

  // ---------- state ----------

  /** The journal's pending record: the app-storage one, or one written by another command. */
  datatype Intent = AddDisk(guest: string, persistentBefore: Definition, liveBefore: Definition) | Foreign(text: string)

  /** `images` and `requests` are the guests whose disk image and attach request are recorded as owned files. */
  datatype Journal = Journal(pending: Option<Intent>, images: set<string>, requests: set<string>,
                             definitions: map<string, string>, completed: set<string>)

  datatype World = World(persistent: map<string, Definition>, live: map<string, Definition>,
                         images: set<string>, requests: map<string, Definition>)

  datatype Stage = Announced | ImageMade | ImageSaved | RequestMade | RequestSaved | Attaching

  datatype Process = Stopped | Running(guest: string, stage: Stage, persistent: Definition, live: Definition,
                                       request: Definition)

  datatype State = State(durable: Journal, world: World, process: Process)

  /** `healthy` stands for the prerequisite, inventory and cluster checks of that moment. */
  datatype Action =
    | Begin(guest: string, healthy: bool)
    | MakeImage | SaveImage | MakeRequest | SaveRequest
    | StartAttach
    | AttachLive(after: Definition) | AttachConfig(after: Definition)
    | Finish(healthy: bool)
    | Crash
    | Readback(guest: string, healthy: bool)

  function Refuse(s: State): State { s.(process := Stopped) }

  predicate MayBegin(tools: Tools, s: State, guest: string) {
    && s.process.Stopped? && s.durable.pending.None? && guest !in s.durable.completed
    && guest in s.world.persistent && guest in s.world.live
    && guest !in s.world.images && guest !in s.durable.images
    && tools.request(guest, s.world.live[guest]).Some?
    && tools.request(guest, s.world.persistent[guest]) == tools.request(guest, s.world.live[guest])
  }

  /** The record both commands write in the end. */
  function Acknowledged(tools: Tools, journal: Journal, guest: string, actual: Definition): Journal {
    journal.(pending := None, definitions := journal.definitions[guest := tools.hash(actual)],
             completed := journal.completed + {guest})
  }

  predicate Attached(tools: Tools, world: World, guest: string, persistent: Definition, live: Definition) {
    && guest in world.persistent && guest in world.live
    && tools.verify(guest, persistent, world.persistent[guest]) && tools.verify(guest, live, world.live[guest])
  }

  predicate MayAcknowledge(tools: Tools, s: State, guest: string) {
    && s.process.Stopped?
    && s.durable.pending.Some? && s.durable.pending.value.AddDisk? && s.durable.pending.value.guest == guest
    && var intent := s.durable.pending.value;
       && s.durable.images <= s.world.images && s.durable.requests <= s.world.requests.Keys
       && guest in s.durable.definitions && s.durable.definitions[guest] == tools.hash(intent.persistentBefore)
       && guest in s.durable.requests && Some(s.world.requests[guest]) == tools.request(guest, intent.liveBefore)
       && Attached(tools, s.world, guest, intent.persistentBefore, intent.liveBefore)
       && guest !in s.durable.completed && guest in s.durable.images
  }

  function Next(tools: Tools, s: State, action: Action): State {
    match action
    case Begin(guest, healthy) =>
      if healthy && MayBegin(tools, s, guest) then
        var persistent, live := s.world.persistent[guest], s.world.live[guest];
        s.(durable := s.durable.(pending := Some(AddDisk(guest, persistent, live))),
           process := Running(guest, Announced, persistent, live, tools.request(guest, live).value))
      else s
    case MakeImage =>
      if s.process.Running? && s.process.stage == Announced && s.process.guest !in s.world.images
      then s.(world := s.world.(images := s.world.images + {s.process.guest}),
              process := s.process.(stage := ImageMade))
      else Refuse(s)
    case SaveImage =>
      if s.process.Running? && s.process.stage == ImageMade
      then s.(durable := s.durable.(images := s.durable.images + {s.process.guest}),
              process := s.process.(stage := ImageSaved))
      else Refuse(s)
    case MakeRequest =>
      if s.process.Running? && s.process.stage == ImageSaved && s.process.guest !in s.world.requests
      then s.(world := s.world.(requests := s.world.requests[s.process.guest := s.process.request]),
              process := s.process.(stage := RequestMade))
      else Refuse(s)
    case SaveRequest =>
      if s.process.Running? && s.process.stage == RequestMade
      then s.(durable := s.durable.(requests := s.durable.requests + {s.process.guest}),
              process := s.process.(stage := RequestSaved))
      else Refuse(s)
    case StartAttach =>
      if s.process.Running? && s.process.stage == RequestSaved
         && s.process.guest in s.world.persistent && s.process.guest in s.world.live
         && s.world.persistent[s.process.guest] == s.process.persistent
           && s.world.live[s.process.guest] == s.process.live
      then s.(process := s.process.(stage := Attaching))
      else Refuse(s)
    case AttachLive(after) =>
      if s.process.Running? && s.process.stage == Attaching
      then s.(world := s.world.(live := s.world.live[s.process.guest := after]))
      else s
    case AttachConfig(after) =>
      if s.process.Running? && s.process.stage == Attaching
      then s.(world := s.world.(persistent := s.world.persistent[s.process.guest := after]))
      else s
    case Finish(healthy) =>
      if healthy && s.process.Running? && s.process.stage == Attaching
         && Attached(tools, s.world, s.process.guest, s.process.persistent, s.process.live)
      then State(Acknowledged(tools, s.durable, s.process.guest, s.world.persistent[s.process.guest]), s.world, Stopped)
      else Refuse(s)
    case Crash => Refuse(s)
    case Readback(guest, healthy) =>
      if healthy && MayAcknowledge(tools, s, guest)
      then s.(durable := Acknowledged(tools, s.durable, guest, s.world.persistent[guest]))
      else s
  }

  function After(tools: Tools, s: State, actions: seq<Action>): State
    decreases |actions|
  {
    if actions == [] then s else After(tools, Next(tools, s, actions[0]), actions[1..])
  }

  // ---------- what every step keeps ----------

  predicate Maps<T(==)>(m: map<string, T>, guest: string, value: T) { guest in m && m[guest] == value }

  /** The journal describes the definition the hypervisor has. */
  ghost predicate Describes(tools: Tools, s: State, guest: string) {
    guest in s.world.persistent && Maps(s.durable.definitions, guest, tools.hash(s.world.persistent[guest]))
  }

  /** A journal and a world this tool may start from: complete, consistent and without foreign intents. */
  ghost predicate Consistent(tools: Tools, s: State) {
    && s.world.persistent.Keys == s.world.live.Keys
    && s.durable.images <= s.world.images && s.durable.requests <= s.world.requests.Keys
    && s.durable.completed <= s.durable.images && s.durable.completed <= s.durable.requests
    && (forall g :: g in s.world.persistent && !PendingFor(s.durable, g) ==> Describes(tools, s, g))
    && (forall g :: g in s.world.requests && g !in s.durable.completed ==> PendingFor(s.durable, g))
    && (forall g :: PendingFor(s.durable, g) ==> PendingOk(tools, s, g))
  }

  predicate PendingFor(journal: Journal, guest: string) {
    journal.pending.Some? && journal.pending.value.AddDisk? && journal.pending.value.guest == guest
  }

  ghost predicate PendingOk(tools: Tools, s: State, guest: string)
    requires PendingFor(s.durable, guest)
  {
    var intent := s.durable.pending.value;
    && guest in s.world.persistent && guest !in s.durable.completed
    && guest in s.durable.definitions && s.durable.definitions[guest] == tools.hash(intent.persistentBefore)
    && tools.request(guest, intent.liveBefore).Some?
    && (guest in s.world.requests ==> Some(s.world.requests[guest]) == tools.request(guest, intent.liveBefore))
    && (guest !in s.durable.requests ==>
          Maps(s.world.persistent, guest, intent.persistentBefore) && Maps(s.world.live, guest, intent.liveBefore))
    && (guest in s.durable.requests ==> guest in s.durable.images)
  }

  ghost predicate ProcessOk(tools: Tools, s: State) {
    s.process.Running? ==>
      var g := s.process.guest;
      && s.durable.pending == Some(AddDisk(g, s.process.persistent, s.process.live))
      && tools.request(g, s.process.live) == Some(s.process.request)
      && (s.process.stage in {ImageMade} ==> g in s.world.images)
      && (s.process.stage in {ImageSaved, RequestMade, RequestSaved, Attaching} ==> g in s.durable.images)
      && (s.process.stage in {RequestMade} ==> g in s.world.requests)
      && (s.process.stage in {RequestSaved, Attaching} <==> g in s.durable.requests)
      && (s.process.stage != Attaching ==>
            Maps(s.world.persistent, g, s.process.persistent) && Maps(s.world.live, g, s.process.live))
  }

  ghost predicate Invariant(tools: Tools, s: State) {
    Consistent(tools, s) && (s.process.Running? ==> s.process.guest in s.world.persistent) && ProcessOk(tools, s)
  }

  lemma BeginKeeps(tools: Tools, s: State, guest: string, healthy: bool)
    requires Invariant(tools, s)
    ensures Invariant(tools, Next(tools, s, Begin(guest, healthy)))
  {
    if healthy && MayBegin(tools, s, guest) {
      assert guest !in s.world.requests;
    }
  }

  lemma FilesKeep(tools: Tools, s: State, action: Action)
    requires Invariant(tools, s)
             && (action.MakeImage? || action.SaveImage? || action.MakeRequest? || action.SaveRequest?)
    ensures Invariant(tools, Next(tools, s, action))
  {
  }

  lemma AttachKeeps(tools: Tools, s: State, action: Action)
    requires Invariant(tools, s) && (action.StartAttach? || action.AttachLive? || action.AttachConfig?)
    ensures Invariant(tools, Next(tools, s, action))
  {
  }

  lemma AcknowledgeKeeps(tools: Tools, s: State, action: Action)
    requires Invariant(tools, s) && (action.Finish? || action.Readback? || action.Crash?)
    ensures Invariant(tools, Next(tools, s, action))
  {
  }

  lemma StepKeeps(tools: Tools, s: State, action: Action)
    requires Invariant(tools, s)
    ensures Invariant(tools, Next(tools, s, action))
  {
    if action.Begin? {
      BeginKeeps(tools, s, action.guest, action.healthy);
    } else if action.MakeImage? || action.SaveImage? || action.MakeRequest? || action.SaveRequest? {
      FilesKeep(tools, s, action);
    } else if action.StartAttach? || action.AttachLive? || action.AttachConfig? {
      AttachKeeps(tools, s, action);
    } else {
      AcknowledgeKeeps(tools, s, action);
    }
  }

  lemma {:induction false} RunKeeps(tools: Tools, s: State, actions: seq<Action>)
    requires Invariant(tools, s)
    ensures Invariant(tools, After(tools, s, actions))
    decreases |actions|
  {
    if actions != [] {
      StepKeeps(tools, s, actions[0]);
      RunKeeps(tools, Next(tools, s, actions[0]), actions[1..]);
    }
  }

  // ---------- main results ----------

  /**
   Whenever an attach has been started, stopping there and reading back leaves exactly the journal the
   uninterrupted run would leave, and the hypervisor as it was.
   */
  lemma ReadbackEqualsUninterrupted(tools: Tools, start: State, actions: seq<Action>)
    requires Consistent(tools, start) && start.process.Stopped?
    ensures var s := After(tools, start, actions);
            s.process.Running? && s.process.stage == Attaching ==>
              var direct := Next(tools, s, Finish(true));
              var resumed := Next(tools, Next(tools, s, Crash), Readback(s.process.guest, true));
              direct.durable == resumed.durable && direct.world == resumed.world == s.world
  {
    RunKeeps(tools, start, actions);
    var s := After(tools, start, actions);
    if s.process.Running? && s.process.stage == Attaching {
      AttachingIsAcknowledgeable(tools, s);
    }
  }

  /** While attaching, everything the readback asks for besides the attachment itself is already durable. */
  lemma AttachingIsAcknowledgeable(tools: Tools, s: State)
    requires Invariant(tools, s) && s.process.Running? && s.process.stage == Attaching
    ensures MayAcknowledge(tools, Next(tools, s, Crash), s.process.guest)
       <==> Attached(tools, s.world, s.process.guest, s.process.persistent, s.process.live)
  {
    assert PendingFor(s.durable, s.process.guest);
  }

  /** Before both definitions have changed, a readback refuses: nothing is written, nothing is touched. */
  lemma ReadbackBeforeAttachRefuses(tools: Tools, start: State, actions: seq<Action>, guest: string, healthy: bool)
    requires Consistent(tools, start) && start.process.Stopped? && Sound(tools)
    ensures var s := After(tools, start, actions);
            s.process.Running? && (|| s.process.stage != Attaching
                                   || Maps(s.world.persistent, s.process.guest, s.process.persistent)
                                   || Maps(s.world.live, s.process.guest, s.process.live)) ==>
              var stopped := Next(tools, s, Crash);
              Next(tools, stopped, Readback(guest, healthy)) == stopped
  {
    RunKeeps(tools, start, actions);
  }

  /** Whenever no intent is pending, every recorded hash is the hash of the definition in force. */
  lemma JournalDescribesHypervisor(tools: Tools, start: State, actions: seq<Action>)
    requires Consistent(tools, start) && start.process.Stopped?
    ensures var s := After(tools, start, actions);
            && (s.durable.pending.None? ==> forall g :: g in s.world.persistent ==> Describes(tools, s, g))
            && (forall g :: g in s.durable.completed ==> g in s.world.images && g in s.world.requests)
  {
    RunKeeps(tools, start, actions);
  }
}
