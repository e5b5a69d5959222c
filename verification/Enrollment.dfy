/**
 Installing, enrolling and verifying a guest. The enrollment call must not be repeated, so its outcome is
 bracketed by two journal writes; every run may stop between any two steps, and in the middle of writing a file.
 */
module Enrollment {
  import opened Wrappers

  datatype Phase = Installing | Installed | Enrolling | Enrolled | Started | VpnVerified

  /** journal.json: the phase, and whether it carries a VPN check. */
  datatype Stored = Stored(phase: Phase, vpnCheck: bool)

  const SAMPLES: nat := 13

  /** The release's required binaries are the targets 0, 1 and 2 of an install, its configuration files the others. */
  const BINARIES: nat := 3

  /** Where a running command stands. */
  datatype Process =
    | Idle
    | FreshDirectory                // first install, journal directory made, nothing written yet
    | Opened                        // install, the journal has been read and its phase accepted
    | Filling                       // install, the payload directory made by this run is being filled
    | Placing(seen: set<nat>)       // install, these targets have been written, or found there and equal
    | Starting(phase: Phase)        // start, installed files verified, services enabled
    | Announced                     // start, "enrolling" is on disk
    | Called                        // start, the enrollment command has returned
    | EnrollmentSettled             // start, "enrolled" is on disk
    | AgentUp                       // start, the agent service has been enabled
    | Sampling(passed: nat)         // verify-vpn, this many samples have passed

  /**
   What an install puts on the disk of a guest with `configs` configuration files. `payload` holds the binaries that
   are completely unpacked, once its directory exists. Of the targets, `placed` are in place and `torn` exist but
   are not what they should be.
   */
  datatype Disk = Disk(configs: nat, payload: Option<set<nat>>, placed: set<nat>, torn: set<nat>)

  /**
   The last four fields are history: how often enrollment was called, whether it was ever recorded, and how
   many samples in a row have passed since the journal last said "started" and since the agent was last enabled.
   */
  datatype State = State(directory: bool, durable: Option<Stored>, disk: Disk, identity: bool, agentEnabled: bool,
                         process: Process, calls: nat, enrollmentRecorded: bool, sinceRecorded: nat, sinceEnabled: nat)

  function Fresh(configs: nat): State {
    State(false, None, Disk(configs, None, {}, {}), false, false, Idle, 0, false, 0, 0)
  }

  datatype Action =
    | InstallFirst | WriteFirst | InstallAgain
    | MakePayload | Unpack(binary: nat) | FinishUnpack | SkipUnpack
    | Place(target: nat)            // write a target, or find it in place
    | Tear(target: nat)             // stop while writing a target
    | FinishInstall
    | BeginStart | AnnounceEnrollment | CallEnrollment(succeeds: bool, leavesIdentity: bool)
    | RecordEnrollment(valid: bool) | EnableAgent | RecordStart
    | BeginVerify | Sample(passes: bool) | RecordVerified(intervalOk: bool)
    | Crash

  /** What the journal says. */
  predicate At(s: State, phase: Phase) { s.durable.Some? && s.durable.value.phase == phase }
  predicate IsStarted(s: State) { At(s, Started) || At(s, VpnVerified) }
  predicate IsEnrolled(s: State) { At(s, Enrolled) || IsStarted(s) }
  predicate IsInstalled(s: State) { At(s, Installed) || IsEnrolled(s) }

  function Total(d: Disk): nat { BINARIES + d.configs }

  /** All numbers below `n` are in the set. */
  predicate Covers(numbers: set<nat>, n: nat) { forall i: nat :: i < n ==> i in numbers }

  /** Every required binary has been unpacked. */
  predicate Unpacked(d: Disk) { d.payload.Some? && Covers(d.payload.value, BINARIES) }

  /** Every target is in place. */
  predicate Complete(d: Disk) { Covers(d.placed, Total(d)) }

  /**
   May a run that is done with the targets `seen` turn to this one? Binaries come first, in any order, and each is
   read from the payload; configuration files follow in their order. A file that is there must be the right one.
   */
  predicate MayPlace(d: Disk, seen: set<nat>, i: nat) {
    && i < Total(d) && i !in seen && i !in d.torn
    && (if i < BINARIES then d.payload.Some? && i in d.payload.value else Covers(seen, i))
  }

  function Stop(s: State): State { s.(process := Idle) }

  /** Making the journal and the payload. */
  function Unpacking(s: State, action: Action): State {
    match action
    case InstallFirst =>
      if s.process.Idle? && !s.directory then s.(directory := true, process := FreshDirectory) else Stop(s)
    case WriteFirst =>
      if s.process.FreshDirectory?
      then s.(durable := Some(Stored(Installing, false)), process := Opened) else Stop(s)
    case InstallAgain =>
      if s.process.Idle? && (At(s, Installing) || IsInstalled(s))
      then s.(process := Opened) else Stop(s)
    case MakePayload =>
      if s.process.Opened? && s.disk.payload.None?
      then s.(disk := s.disk.(payload := Some({})), process := Filling) else Stop(s)
    case Unpack(b) =>
      if s.process.Filling? && s.disk.payload.Some? && b < BINARIES
      then s.(disk := s.disk.(payload := Some(s.disk.payload.value + {b}))) else Stop(s)
    case FinishUnpack => if s.process.Filling? && Unpacked(s.disk) then s.(process := Placing({})) else Stop(s)
    case SkipUnpack => if s.process.Opened? && s.disk.payload.Some? then s.(process := Placing({})) else Stop(s)
    case _ => Stop(s)
  }

  /** Putting the files in place. */
  function Putting(s: State, action: Action): State {
    match action
    case Place(i) =>
      if s.process.Placing? && MayPlace(s.disk, s.process.seen, i)
      then s.(disk := s.disk.(placed := s.disk.placed + {i}), process := Placing(s.process.seen + {i})) else Stop(s)
    case Tear(i) =>
      if s.process.Placing? && MayPlace(s.disk, s.process.seen, i) && i !in s.disk.placed
      then s.(disk := s.disk.(torn := s.disk.torn + {i}), process := Idle) else Stop(s)
    case FinishInstall =>
      if s.process.Placing? && Covers(s.process.seen, Total(s.disk)) && At(s, Installing)
      then s.(durable := Some(s.durable.value.(phase := Installed)), process := Idle) else Stop(s)
    case _ => Stop(s)
  }

  /** The start command up to the enrollment. */
  function StartStep(s: State, action: Action): State {
    match action
    case BeginStart =>
      if s.process.Idle? && IsInstalled(s) && Complete(s.disk)
      then s.(process := Starting(s.durable.value.phase)) else Stop(s)
    case AnnounceEnrollment =>
      if s.process == Starting(Installed) && s.durable.Some? && !s.identity
      then s.(durable := Some(s.durable.value.(phase := Enrolling)), process := Announced) else Stop(s)
    case CallEnrollment(succeeds, leavesIdentity) =>
      if s.process.Announced?
      then s.(calls := s.calls + 1, identity := s.identity || leavesIdentity,
              process := if succeeds then Called else Idle)
      else Stop(s)
    case RecordEnrollment(valid) =>
      if s.process.Called? && valid && s.identity && s.durable.Some?
      then s.(durable := Some(s.durable.value.(phase := Enrolled)), enrollmentRecorded := true,
              process := EnrollmentSettled)
      else Stop(s)
    case _ => Stop(s)
  }

  /** The end of it. */
  function EnableStep(s: State, action: Action): State {
    match action
    case EnableAgent =>
      if s.process.EnrollmentSettled? || (s.process.Starting? && s.process.phase != Installed)
      then s.(agentEnabled := true, sinceEnabled := 0, process := AgentUp) else Stop(s)
    case RecordStart =>
      if s.process.AgentUp?
      then s.(durable := Some(Stored(Started, false)), sinceRecorded := 0, process := Idle) else Stop(s)
    case _ => Stop(s)
  }

  /** The VPN verification. */
  function VerifyStep(s: State, action: Action): State {
    match action
    case BeginVerify =>
      if s.process.Idle? && IsStarted(s)
      then s.(durable := Some(Stored(Started, false)), sinceRecorded := 0, process := Sampling(0)) else Stop(s)
    case Sample(passes) =>
      if s.process.Sampling? && s.process.passed < SAMPLES && passes
      then s.(sinceRecorded := s.sinceRecorded + 1, sinceEnabled := s.sinceEnabled + 1,
              process := Sampling(s.process.passed + 1))
      else Stop(s)
    case RecordVerified(intervalOk) =>
      if s.process == Sampling(SAMPLES) && intervalOk
      then s.(durable := Some(Stored(VpnVerified, true)), process := Idle) else Stop(s)
    case _ => Stop(s)
  }

  predicate IsUnpacking(action: Action) {
    || action.InstallFirst? || action.WriteFirst? || action.InstallAgain? || action.MakePayload? || action.Unpack?
    || action.FinishUnpack? || action.SkipUnpack?
  }

  predicate IsPutting(action: Action) { action.Place? || action.Tear? || action.FinishInstall? }

  predicate IsStart(action: Action) {
    action.BeginStart? || action.AnnounceEnrollment? || action.CallEnrollment? || action.RecordEnrollment?
  }

  predicate IsEnable(action: Action) { action.EnableAgent? || action.RecordStart? }

  /** An action whose guard fails is a refusal; it ends the command. */
  function Next(s: State, action: Action): State {
    if IsUnpacking(action) then Unpacking(s, action)
    else if IsPutting(action) then Putting(s, action)
    else if IsStart(action) then StartStep(s, action)
    else if IsEnable(action) then EnableStep(s, action)
    else VerifyStep(s, action)
  }

  function After(s: State, actions: seq<Action>): State
    decreases |actions|
  {
    if actions == [] then s else After(Next(s, actions[0]), actions[1..])
  }

  // ---------- what every step keeps ----------

  ghost predicate Orderly(d: Disk) {
    && (d.payload.None? ==> d.torn == {})
    && forall i :: i in d.torn ==> i < Total(d) && i !in d.placed
  }

  /** What a run that has got to these targets has seen. */
  ghost predicate Seen(d: Disk, seen: set<nat>) {
    d.payload.Some? && forall i :: i in seen ==> i in d.placed && (i < BINARIES ==> i in d.payload.value)
  }

  /** Only a complete set of files gets past "installing". */
  ghost predicate FilesKept(s: State) {
    && Orderly(s.disk)
    && (s.durable.Some? && s.durable.value.phase != Installing ==> Complete(s.disk))
    && (s.process.Filling? ==> s.disk.payload.Some? && s.disk.torn == {})
    && (s.process.Placing? ==> Seen(s.disk, s.process.seen))
  }

  /** Which command stands where. */
  ghost predicate Standing(s: State) {
    && (s.durable.Some? ==> s.directory)
    && (!s.directory ==> s.process.Idle?)
    && (s.process.FreshDirectory? ==> s.durable.None?)
    && (s.disk.payload.Some? ==> s.durable.Some?)
    && (s.process.Opened? || s.process.Placing? ==> s.durable.Some?)
    && (s.process.Starting? ==> At(s, s.process.phase) && IsInstalled(s))
    && (At(s, Enrolling) ==> s.process.Idle? || s.process.Announced? || s.process.Called?)
  }

  /** The enrollment: one call, made only while "enrolling" is on disk, and recorded before anything later. */
  ghost predicate OneEnrollment(s: State) {
    && s.calls <= 1
    && (s.calls == 1 ==> At(s, Enrolling) || IsEnrolled(s))
    && (s.identity ==> At(s, Enrolling) || IsEnrolled(s))
    && (s.process.Announced? ==> s.calls == 0 && At(s, Enrolling))
    && (s.process.Called? ==> At(s, Enrolling))
    && (s.enrollmentRecorded <==> IsEnrolled(s))
    && (s.process.EnrollmentSettled? || s.process.AgentUp? ==> s.enrollmentRecorded)
    && (s.agentEnabled ==> s.enrollmentRecorded)
  }

  /** A verified guest has its samples. */
  ghost predicate Sampled(s: State) {
    && (s.process.Sampling? ==>
      s.durable == Some(Stored(Started, false)) && s.sinceRecorded == s.process.passed <= SAMPLES
        && s.sinceEnabled >= s.sinceRecorded)
    && (At(s, VpnVerified) ==> s.durable.value.vpnCheck && s.sinceRecorded >= SAMPLES)
    && (s.durable.Some? && s.durable.value.vpnCheck ==> s.durable.value.phase == VpnVerified)
  }

  ghost predicate Invariant(s: State) { FilesKept(s) && Standing(s) && OneEnrollment(s) && Sampled(s) }

  lemma UnpackingKeepsFiles(s: State, action: Action)
    requires FilesKept(s) && Standing(s)
    ensures FilesKept(Unpacking(s, action))
  {
  }

  lemma UnpackingKeeps(s: State, action: Action)
    requires Standing(s) && OneEnrollment(s) && Sampled(s)
    ensures var s' := Unpacking(s, action);
            Standing(s') && OneEnrollment(s') && Sampled(s')
  {
  }

  lemma PuttingKeepsFiles(s: State, action: Action)
    requires FilesKept(s) && Standing(s)
    ensures FilesKept(Putting(s, action))
  {
  }

  lemma PuttingStands(s: State, action: Action)
    requires Standing(s)
    ensures Standing(Putting(s, action))
  {
  }

  lemma PuttingKeeps(s: State, action: Action)
    requires Standing(s) && OneEnrollment(s) && Sampled(s)
    ensures OneEnrollment(Putting(s, action)) && Sampled(Putting(s, action))
  {
  }

  lemma StartStepKeepsFiles(s: State, action: Action)
    requires FilesKept(s) && Standing(s) && OneEnrollment(s)
    ensures FilesKept(StartStep(s, action))
  {
  }

  lemma StartStepStands(s: State, action: Action)
    requires Standing(s) && OneEnrollment(s)
    ensures Standing(StartStep(s, action))
  {
  }

  lemma StartStepKeeps(s: State, action: Action)
    requires Standing(s) && OneEnrollment(s) && Sampled(s)
    ensures OneEnrollment(StartStep(s, action)) && Sampled(StartStep(s, action))
  {
  }

  lemma EnableStepKeepsFiles(s: State, action: Action)
    requires FilesKept(s) && Standing(s) && OneEnrollment(s)
    ensures FilesKept(EnableStep(s, action))
  {
  }

  lemma EnableStepKeeps(s: State, action: Action)
    requires Standing(s) && OneEnrollment(s) && Sampled(s)
    ensures var s' := EnableStep(s, action);
            Standing(s') && OneEnrollment(s') && Sampled(s')
  {
  }

  lemma VerifyStepKeepsFiles(s: State, action: Action)
    requires FilesKept(s) && Sampled(s)
    ensures FilesKept(VerifyStep(s, action))
  {
  }

  lemma VerifyStepKeeps(s: State, action: Action)
    requires Standing(s) && OneEnrollment(s) && Sampled(s)
    ensures var s' := VerifyStep(s, action);
            Standing(s') && OneEnrollment(s') && Sampled(s')
  {
  }

  lemma StepKeeps(s: State, action: Action)
    requires Invariant(s)
    ensures Invariant(Next(s, action))
  {
    if IsUnpacking(action) {
      UnpackingKeepsFiles(s, action);
      UnpackingKeeps(s, action);
    } else if IsPutting(action) {
      PuttingKeepsFiles(s, action);
      PuttingStands(s, action);
      PuttingKeeps(s, action);
    } else if IsStart(action) {
      StartStepKeepsFiles(s, action);
      StartStepStands(s, action);
      StartStepKeeps(s, action);
    } else if IsEnable(action) {
      EnableStepKeepsFiles(s, action);
      EnableStepKeeps(s, action);
    } else {
      VerifyStepKeepsFiles(s, action);
      VerifyStepKeeps(s, action);
    }
  }

  lemma {:induction false} RunKeeps(s: State, actions: seq<Action>)
    requires Invariant(s)
    ensures Invariant(After(s, actions))
    decreases |actions|
  {
    if actions != [] {
      StepKeeps(s, actions[0]);
      RunKeeps(Next(s, actions[0]), actions[1..]);
    }
  }

  // ---------- main results ----------

  /**
   Whatever runs and crashes there are: one enrollment call, made with every file in place, no agent without a
   recorded enrollment, no verification without its samples.
   */
  lemma EnrollsAtMostOnce(configs: nat, actions: seq<Action>)
    ensures var s := After(Fresh(configs), actions);
            && s.calls <= 1
            && (s.calls == 1 || s.agentEnabled ==> Complete(s.disk) && s.disk.torn == {})
            && (s.agentEnabled ==> s.enrollmentRecorded && IsEnrolled(s))
            && (At(s, VpnVerified) ==> s.sinceRecorded >= SAMPLES && s.durable.value.vpnCheck)
  {
    RunKeeps(Fresh(configs), actions);
  }

  /** A run that stopped in "enrolling" is a dead end: nothing is written, called or enabled ever after. */
  lemma {:induction false} EnrollingIsFinal(s: State, actions: seq<Action>)
    requires Invariant(s) && s.process.Idle? && At(s, Enrolling)
    ensures After(s, actions) == s
    decreases |actions|
  {
    if actions != [] {
      assert Next(s, actions[0]) == s;
      EnrollingIsFinal(s, actions[1..]);
    }
  }

  /**
   A first install that stopped before its first journal write is a dead end too, reached in one step from scratch.
   */
  lemma {:induction false} UnwrittenJournalIsFinal(s: State, actions: seq<Action>)
    requires s.process.Idle? && s.directory && s.durable.None?
    ensures After(s, actions) == s
    decreases |actions|
  {
    if actions != [] {
      assert Next(s, actions[0]) == s;
      UnwrittenJournalIsFinal(s, actions[1..]);
    }
  }

  // ---------- which interruptions can be continued ----------

  lemma {:induction false} AfterConcat(s: State, a: seq<Action>, b: seq<Action>)
    ensures After(s, a + b) == After(After(s, a), b)
    decreases |a|
  {
    if a == [] {
      assert a + b == b;
    } else {
      assert (a + b)[1..] == a[1..] + b;
      AfterConcat(Next(s, a[0]), a[1..], b);
    }
  }

  lemma AfterSnoc(s: State, actions: seq<Action>, action: Action)
    ensures After(s, actions + [action]) == Next(After(s, actions), action)
  {
    AfterConcat(s, actions, [action]);
    assert [action][1..] == [];
  }

  lemma AfterCons(s: State, a: Action, more: seq<Action>)
    ensures After(s, [a] + more) == After(Next(s, a), more)
  {
    assert ([a] + more)[1..] == more;
  }

  lemma AfterTwo(s: State, a: Action, b: Action)
    ensures After(s, [a, b]) == Next(Next(s, a), b)
  {
    AfterSnoc(s, [a], b);
    AfterSnoc(s, [], a);
  }

  lemma AfterThree(s: State, a: Action, b: Action, c: Action)
    ensures After(s, [a, b, c]) == Next(Next(Next(s, a), b), c)
  {
    assert [a, b, c][1..] == [b, c] && [b, c][1..] == [c] && [c][1..] == [];
    assert After(s, [a, b, c]) == After(Next(s, a), [b, c]) == After(Next(Next(s, a), b), [c])
      == Next(Next(Next(s, a), b), c);
  }

  /** A verification that has taken `k` more samples, all passing. */
  function Took(s: State, k: nat): State
    requires s.process.Sampling?
  {
    s.(sinceRecorded := s.sinceRecorded + k, sinceEnabled := s.sinceEnabled + k,
       process := Sampling(s.process.passed + k))
  }

  lemma SampleStep(s: State, k: nat, passes: bool)
    requires s.process.Sampling? && s.process.passed + k < SAMPLES
    ensures Next(Took(s, k), Sample(passes)) == if passes then Took(s, k + 1) else Stop(Took(s, k))
  {
  }

  /** Passing samples, one after the other. */
  lemma {:induction false} Samples(s: State, k: nat) returns (actions: seq<Action>)
    requires s.process.Sampling? && s.process.passed + k <= SAMPLES
    ensures After(s, actions) == Took(s, k)
    decreases k
  {
    if k == 0 {
      actions := [];
    } else {
      var rest := Samples(Next(s, Sample(true)), k - 1);
      actions := [Sample(true)] + rest;
      assert actions[1..] == rest;
    }
  }

  lemma Verifies(s: State) returns (actions: seq<Action>)
    requires s.process.Idle? && IsStarted(s)
    ensures At(After(s, actions), VpnVerified) && After(s, actions).process.Idle?
  {
    var s1 := Next(s, BeginVerify);
    var samples := Samples(s1, SAMPLES);
    var s2 := After(s1, samples);
    actions := [BeginVerify] + samples + [RecordVerified(true)];
    AfterConcat(s, [BeginVerify] + samples, [RecordVerified(true)]);
    AfterConcat(s, [BeginVerify], samples);
    assert [BeginVerify][1..] == [] && [RecordVerified(true)][1..] == [];
    assert After(s, [BeginVerify]) == s1;
  }

  /** The bracketed enrollment, all answered. */
  lemma Enrolls(s: State) returns (actions: seq<Action>)
    requires s.process.Idle? && At(s, Installed) && Complete(s.disk) && !s.identity
    ensures After(s, actions).process.EnrollmentSettled?
  {
    var s1 := Next(s, BeginStart);
    assert s1 == s.(process := Starting(Installed));
    AfterThree(s1, AnnounceEnrollment, CallEnrollment(true, true), RecordEnrollment(true));
    var enroll := [AnnounceEnrollment, CallEnrollment(true, true), RecordEnrollment(true)];
    actions := [BeginStart] + enroll;
    AfterCons(s, BeginStart, enroll);
  }

  lemma Starts(s: State) returns (actions: seq<Action>)
    requires s.process.Idle? && IsInstalled(s) && Complete(s.disk)
    requires At(s, Installed) ==> !s.identity
    ensures At(After(s, actions), Started) && After(s, actions).process.Idle?
  {
    var up := [BeginStart];
    AfterCons(s, BeginStart, []);
    if At(s, Installed) {
      up := Enrolls(s);
    }
    AfterTwo(After(s, up), EnableAgent, RecordStart);
    AfterConcat(s, up, [EnableAgent, RecordStart]);
    actions := up + [EnableAgent, RecordStart];
  }

  /** Placing what is left of the targets. */
  lemma {:induction false} Places(s: State, k: nat) returns (actions: seq<Action>)
    requires s.process.Placing? && k <= Total(s.disk) && Unpacked(s.disk) && s.disk.torn == {}
    requires forall i :: i in s.process.seen <==> 0 <= i < k
    ensures var s' := After(s, actions);
            s'.process.Placing? && Covers(s'.process.seen, Total(s'.disk)) && s'.durable == s.durable
    decreases Total(s.disk) - k
  {
    if k == Total(s.disk) {
      actions := [];
    } else {
      assert MayPlace(s.disk, s.process.seen, k);
      var rest := Places(Next(s, Place(k)), k + 1);
      actions := [Place(k)] + rest;
      AfterCons(s, Place(k), rest);
    }
  }

  /** From the unpacked payload to the end of the install. */
  lemma Finishes(s: State) returns (actions: seq<Action>)
    requires s.process == Placing({}) && Unpacked(s.disk) && s.disk.torn == {} && At(s, Installing)
    ensures At(After(s, actions), Installed) && After(s, actions).process.Idle?
  {
    var place := Places(s, 0);
    actions := place + [FinishInstall];
    AfterSnoc(s, place, FinishInstall);
  }

  lemma Unpacks(s: State)
    requires s.process.Filling? && s.disk.payload == Some({})
    ensures After(s, [Unpack(0), Unpack(1), Unpack(2)]) == s.(disk := s.disk.(payload := Some({0, 1, 2})))
  {
    AfterThree(s, Unpack(0), Unpack(1), Unpack(2));
    assert {} + {0} + {1} + {2} == {0, 1, 2};
  }

  /** From an accepted journal to an unpacked payload. */
  lemma Prepares(s: State) returns (actions: seq<Action>)
    requires s.process.Opened? && At(s, Installing) && (s.disk.payload.None? || Unpacked(s.disk))
    ensures var s' := After(s, actions);
            && s' == s.(disk := s.disk.(payload := s'.disk.payload), process := Placing({})) && Unpacked(s'.disk)
  {
    if s.disk.payload.None? {
      Unpacks(Next(s, MakePayload));
      var unpack := [Unpack(0), Unpack(1), Unpack(2)];
      actions := [MakePayload] + unpack + [FinishUnpack];
      AfterSnoc(s, [MakePayload] + unpack, FinishUnpack);
      AfterCons(s, MakePayload, unpack);
    } else {
      actions := [SkipUnpack];
      AfterCons(s, SkipUnpack, []);
    }
  }

  lemma Opens(s: State) returns (actions: seq<Action>)
    requires Invariant(s) && s.process.Idle? && (!s.directory || At(s, Installing))
    ensures var s' := After(s, actions);
            && s'.process.Opened? && At(s', Installing) && s'.disk == s.disk
  {
    if !s.directory {
      actions := [InstallFirst, WriteFirst];
      AfterTwo(s, InstallFirst, WriteFirst);
    } else {
      actions := [InstallAgain];
      AfterCons(s, InstallAgain, []);
    }
  }

  lemma Installs(s: State) returns (actions: seq<Action>)
    requires Invariant(s) && s.process.Idle? && (!s.directory || At(s, Installing)) && !HalfInstalled(s.disk)
    ensures At(After(s, actions), Installed) && After(s, actions).process.Idle?
  {
    var open := Opens(s);
    var s1 := After(s, open);
    RunKeeps(s, open);
    var prepare := Prepares(s1);
    var s2 := After(s1, prepare);
    RunKeeps(s1, prepare);
    var finish := Finishes(s2);
    actions := open + prepare + finish;
    AfterConcat(s, open + prepare, finish);
    AfterConcat(s, open, prepare);
  }

  /** The payload lacks a binary, or a file is not what it should be. */
  predicate HalfInstalled(d: Disk) { (d.payload.Some? && !Unpacked(d)) || d.torn != {} }

  /**
   Stopped before the first journal write, while the payload lacks a binary, while writing a file, or between the
   enrollment's two journal writes.
   */
  datatype Loss = Unwritten | WhileUnpacking | WhileWriting | WhileEnrolling

  predicate LostBy(s: State, loss: Loss) {
    match loss
    case Unwritten => s.directory && s.durable.None?
    case WhileUnpacking => At(s, Installing) && s.disk.payload.Some? && !Unpacked(s.disk)
    case WhileWriting => At(s, Installing) && s.disk.torn != {}
    case WhileEnrolling => At(s, Enrolling)
  }

  predicate Lost(s: State) {
    LostBy(s, Unwritten) || LostBy(s, WhileUnpacking) || LostBy(s, WhileWriting) || LostBy(s, WhileEnrolling)
  }

  lemma SeenAll(d: Disk, seen: set<nat>)
    requires Orderly(d) && Seen(d, seen) && Covers(seen, Total(d))
    ensures !HalfInstalled(d)
  {
    assert forall i :: i in d.torn ==> i in seen;
  }

  /** No step but filling the payload repairs a half-made install. */
  lemma HalfInstalledStays(s: State, action: Action)
    requires Invariant(s) && At(s, Installing) && HalfInstalled(s.disk) && !s.process.Filling?
    ensures var s' := Next(s, action);
            && s'.durable == s.durable && s'.disk.payload == s.disk.payload && s.disk.torn <= s'.disk.torn
            && !s'.process.Filling?
  {
    if s.process.Placing? && Covers(s.process.seen, Total(s.disk)) {
      SeenAll(s.disk, s.process.seen);
    }
  }

  /** An install that stopped while unpacking or while writing a file is a dead end: it is never recorded. */
  lemma {:induction false} HalfInstalledIsFinal(s: State, actions: seq<Action>)
    requires Invariant(s) && At(s, Installing) && HalfInstalled(s.disk) && !s.process.Filling?
    ensures var s' := After(s, actions);
            && s'.durable == s.durable && s'.disk.payload == s.disk.payload && s.disk.torn <= s'.disk.torn
            && s'.calls == 0 && !s'.agentEnabled
    decreases |actions|
  {
    if actions != [] {
      HalfInstalledStays(s, actions[0]);
      StepKeeps(s, actions[0]);
      HalfInstalledIsFinal(Next(s, actions[0]), actions[1..]);
    }
  }

  lemma Continues(s: State) returns (actions: seq<Action>)
    requires Invariant(s) && s.process.Idle? && !Lost(s)
    ensures At(After(s, actions), VpnVerified) && After(s, actions).process.Idle?
  {
    var install := [];
    if !s.directory || At(s, Installing) {
      install := Installs(s);
    } else {
      assert s.durable.value.phase != Installing && s.durable.value.phase != Enrolling;
      assert After(s, install) == s;
    }
    RunKeeps(s, install);
    var s1 := After(s, install);
    var start := Starts(s1);
    var s2 := After(s1, start);
    var verify := Verifies(s2);
    actions := install + start + verify;
    AfterConcat(s, install + start, verify);
    AfterConcat(s, install, start);
  }

  /** Some schedule still gets the guest verified. */
  ghost predicate Verifiable(s: State) { exists more :: At(After(s, more), VpnVerified) }

  lemma VerifiableUnlessLost(s: State)
    requires Invariant(s) && s.process.Idle?
    ensures Verifiable(s) <==> !Lost(s)
  {
    if Lost(s) {
      forall more
        ensures !At(After(s, more), VpnVerified)
      {
        if At(s, Enrolling) {
          EnrollingIsFinal(s, more);
        } else if s.durable.None? {
          UnwrittenJournalIsFinal(s, more);
        } else {
          HalfInstalledIsFinal(s, more);
        }
      }
    } else {
      var more := Continues(s);
      assert At(After(s, more), VpnVerified);
    }
  }

  /**
   After any schedule that has stopped, the guest can still be verified by some later schedule if and only if it did
   not stop before its first journal write, while unpacking or writing a file, or between the enrollment's two writes.
   */
  lemma VerifiableExactly(configs: nat, actions: seq<Action>)
    ensures var s := After(Fresh(configs), actions);
            s.process.Idle? ==> (Verifiable(s) <==> !Lost(s))
  {
    RunKeeps(Fresh(configs), actions);
    if After(Fresh(configs), actions).process.Idle? {
      VerifiableUnlessLost(After(Fresh(configs), actions));
    }
  }

  /** Stopped while unpacking. */
  lemma StopsUnpacking(configs: nat) returns (actions: seq<Action>)
    ensures var s := After(Fresh(configs), actions);
            s.process.Idle? && At(s, Installing) && s.disk.payload.Some? && !Unpacked(s.disk)
  {
    var open := Opens(Fresh(configs));
    var s := After(Fresh(configs), open);
    actions := open + [MakePayload, Crash];
    AfterTwo(s, MakePayload, Crash);
    AfterConcat(Fresh(configs), open, [MakePayload, Crash]);
    assert 0 < BINARIES && 0 !in Next(s, MakePayload).disk.payload.value;
  }

  /** Stopped while writing the first file. */
  lemma StopsWriting(configs: nat) returns (actions: seq<Action>)
    ensures var s := After(Fresh(configs), actions);
            s.process.Idle? && At(s, Installing) && Unpacked(s.disk) && s.disk.torn != {}
  {
    var open := Opens(Fresh(configs));
    var s := After(Fresh(configs), open);
    var prepare := Prepares(s);
    AfterConcat(Fresh(configs), open, prepare);
    var s1 := After(s, prepare);
    assert MayPlace(s1.disk, {}, 0);
    actions := open + prepare + [Tear(0)];
    AfterSnoc(Fresh(configs), open + prepare, Tear(0));
  }

  /** Stopped between the two writes around the enrollment. */
  lemma StopsEnrolling(configs: nat) returns (actions: seq<Action>)
    ensures var s := After(Fresh(configs), actions);
            s.process.Idle? && At(s, Enrolling)
  {
    var install := Installs(Fresh(configs));
    RunKeeps(Fresh(configs), install);
    AfterConcat(Fresh(configs), install, [BeginStart, AnnounceEnrollment, Crash]);
    CutsEnrollment(After(Fresh(configs), install));
    actions := install + [BeginStart, AnnounceEnrollment, Crash];
  }

  lemma CutsEnrollment(s: State)
    requires s.process.Idle? && At(s, Installed) && Complete(s.disk) && !s.identity
    ensures var s' := After(s, [BeginStart, AnnounceEnrollment, Crash]);
            s'.process.Idle? && At(s', Enrolling)
  {
    AfterThree(s, BeginStart, AnnounceEnrollment, Crash);
  }

  /** All four ways to be lost are reached from scratch. */
  lemma LostIsReachable(configs: nat, loss: Loss) returns (actions: seq<Action>)
    ensures After(Fresh(configs), actions).process.Idle? && LostBy(After(Fresh(configs), actions), loss)
  {
    match loss {
      case Unwritten =>
        actions := [InstallFirst, Crash];
        AfterTwo(Fresh(configs), InstallFirst, Crash);
      case WhileUnpacking => actions := StopsUnpacking(configs);
      case WhileWriting => actions := StopsWriting(configs);
      case WhileEnrolling => actions := StopsEnrolling(configs);
    }
  }

  /**
   "Since the last start" is about recorded starts. Counted from the moment the agent is enabled it fails:
   a start run on a verified guest that stops before its last write leaves "vpn-verified-local" standing.
   */
  lemma UnrecordedStartKeepsVerified(s: State)
    requires Invariant(s) && s.process.Idle? && At(s, VpnVerified)
    ensures var s' := After(s, [BeginStart, EnableAgent, Crash]);
            At(s', VpnVerified) && s'.sinceEnabled == 0 && s'.process.Idle?
  {
    AfterThree(s, BeginStart, EnableAgent, Crash);
  }

  /** Such a guest is reached from scratch. */
  lemma UnrecordedStartIsReachable(configs: nat) returns (actions: seq<Action>)
    ensures At(After(Fresh(configs), actions), VpnVerified) && After(Fresh(configs), actions).sinceEnabled == 0
  {
    var first := Continues(Fresh(configs));
    RunKeeps(Fresh(configs), first);
    UnrecordedStartKeepsVerified(After(Fresh(configs), first));
    actions := first + [BeginStart, EnableAgent, Crash];
    AfterConcat(Fresh(configs), first, [BeginStart, EnableAgent, Crash]);
  }

  /** Does a step leave the journal behind an enabled agent? */
  predicate Unrecorded(before: State, action: Action, was: bool) {
    var after := Next(before, action);
    if action.EnableAgent? && after.process.AgentUp? then true
    else if (action.RecordStart? && before.process.AgentUp?) || (action.BeginVerify? && after.process.Sampling?) then
      false
    else was
  }

  /** A start run has enabled the agent and no later journal write has recorded it. */
  predicate UnrecordedStart(s: State, actions: seq<Action>)
    decreases |actions|
  {
    actions != []
    && var n := |actions| - 1;
       Unrecorded(After(s, actions[..n]), actions[n], UnrecordedStart(s, actions[..n]))
  }

  ghost predicate SamplesSinceEnabled(s: State, unrecorded: bool) {
    && (s.process.AgentUp? ==> unrecorded)
    && (s.process.Sampling? ==> !unrecorded)
    && (unrecorded ==> s.sinceEnabled == 0)
    && (At(s, VpnVerified) ==> (s.sinceEnabled >= SAMPLES <==> !unrecorded))
  }

  lemma StepSamples(s: State, action: Action, unrecorded: bool)
    requires Sampled(s) && SamplesSinceEnabled(s, unrecorded)
    ensures SamplesSinceEnabled(Next(s, action), Unrecorded(s, action, unrecorded))
  {
    UnpackingSamples(s, action, unrecorded);
    PuttingSamples(s, action, unrecorded);
  }

  lemma UnpackingSamples(s: State, action: Action, unrecorded: bool)
    requires SamplesSinceEnabled(s, unrecorded)
    ensures SamplesSinceEnabled(Unpacking(s, action), unrecorded)
  {
  }

  lemma PuttingSamples(s: State, action: Action, unrecorded: bool)
    requires SamplesSinceEnabled(s, unrecorded)
    ensures SamplesSinceEnabled(Putting(s, action), unrecorded)
  {
  }

  lemma {:induction false} RunSamples(configs: nat, actions: seq<Action>)
    ensures Invariant(After(Fresh(configs), actions))
            && SamplesSinceEnabled(After(Fresh(configs), actions), UnrecordedStart(Fresh(configs), actions))
    decreases |actions|
  {
    if actions != [] {
      var n := |actions| - 1;
      RunSamples(configs, actions[..n]);
      assert actions == actions[..n] + [actions[n]];
      AfterSnoc(Fresh(configs), actions[..n], actions[n]);
      StepKeeps(After(Fresh(configs), actions[..n]), actions[n]);
      StepSamples(After(Fresh(configs), actions[..n]), actions[n], UnrecordedStart(Fresh(configs), actions[..n]));
    }
  }

  /** Counted from the enabling of the agent, a verified guest has its samples exactly when no start is unrecorded. */
  lemma VerifiedSinceEnabled(configs: nat, actions: seq<Action>)
    ensures var s := After(Fresh(configs), actions);
            At(s, VpnVerified) ==> (s.sinceEnabled >= SAMPLES <==> !UnrecordedStart(Fresh(configs), actions))
  {
    RunSamples(configs, actions);
  }

  // ---------- the commands ----------

  /** One guest's bootstrap state, as the commands change it. */
  class Guest {
    var state: State

    constructor (configs: nat)
      ensures state == Fresh(configs)
    {
      state := Fresh(configs);
    }

    /** `verify_vpn`: reset the verdict, take thirteen samples, record the result. */
    method VerifyVpn(passes: seq<bool>, intervalOk: bool) returns (ok: bool)
      requires Invariant(state) && state.process.Idle? && |passes| == SAMPLES
      modifies this
      ensures Invariant(state) && state.process.Idle?
      ensures ok <==>
                IsStarted(old(state)) && (forall i :: 0 <= i < SAMPLES ==> passes[i])
                  && intervalOk
      ensures ok ==> state.durable == Some(Stored(VpnVerified, true)) && state.sinceRecorded == SAMPLES
      ensures !ok && IsStarted(old(state)) ==> state.durable == Some(Stored(Started, false))
      ensures !IsStarted(old(state)) ==> state == old(state)
      ensures state.calls == old(state).calls && state.agentEnabled == old(state).agentEnabled
    {
      if !IsStarted(state) {
        return false;
      }
      ghost var actions;
      ok, actions := TakeSamples(passes, intervalOk);
      RunKeeps(old(state), actions);
    }

    method TakeSamples(passes: seq<bool>, intervalOk: bool) returns (ok: bool, ghost actions: seq<Action>)
      requires state.process.Idle? && IsStarted(state) && |passes| == SAMPLES
      modifies this
      ensures state == After(old(state), actions) && state.process.Idle?
      ensures ok <==> (forall i :: 0 <= i < SAMPLES ==> passes[i]) && intervalOk
      ensures state.durable == Some(if ok then Stored(VpnVerified, true) else Stored(Started, false))
      ensures ok ==> state.sinceRecorded == SAMPLES
      ensures state.calls == old(state).calls && state.agentEnabled == old(state).agentEnabled
    {
      actions := [BeginVerify];
      AfterCons(state, BeginVerify, []);
      state := Next(state, BeginVerify);
      ghost var began := state;
      for sample := 0 to SAMPLES
        invariant state == After(old(state), actions) && state == Took(began, sample)
        invariant forall i :: 0 <= i < sample ==> passes[i]
      {
        AfterSnoc(old(state), actions, Sample(passes[sample]));
        actions := actions + [Sample(passes[sample])];
        SampleStep(began, sample, passes[sample]);
        state := Next(state, Sample(passes[sample]));
        if !passes[sample] {
          return false, actions;
        }
      }
      AfterSnoc(old(state), actions, RecordVerified(intervalOk));
      actions := actions + [RecordVerified(intervalOk)];
      state := Next(state, RecordVerified(intervalOk));
      ok := intervalOk;
    }

    /** One step of a command, or the crash that prevents it. */
    method Step(action: Action, lifetime: nat) returns (left: nat, ghost did: Action)
      modifies this
      ensures did == if lifetime == 0 then Crash else action
      ensures left == if lifetime == 0 then 0 else lifetime - 1
      ensures state == Next(old(state), did)
    {
      if lifetime == 0 {
        state := Stop(state);
        return 0, Crash;
      }
      state := Next(state, action);
      left, did := lifetime - 1, action;
    }

    /** The bracketed enrollment: announce, call, record. */
    method Enroll(called: bool, leavesIdentity: bool, valid: bool, lifetime: nat)
      returns (left: nat, ghost actions: seq<Action>)
      requires state.process == Starting(Installed) && state.durable.Some?
      modifies this
      ensures state == After(old(state), actions) && (state.process.Idle? || state.process.EnrollmentSettled?)
      ensures state.calls <= old(state).calls + 1 && state.agentEnabled == old(state).agentEnabled
      ensures state.process == EnrollmentSettled <==>
                called && leavesIdentity && valid && !old(state).identity && lifetime >= 3
      ensures state.process == EnrollmentSettled ==> left == lifetime - 3 && state.calls == old(state).calls + 1
    {
      ghost var a, b, c;
      left, a := Step(AnnounceEnrollment, lifetime);
      actions := [a];
      AfterCons(old(state), a, []);
      if !state.process.Announced? { return; }
      left, b := Step(CallEnrollment(called, leavesIdentity), left);
      actions := [a, b];
      AfterTwo(old(state), a, b);
      if !state.process.Called? { return; }
      left, c := Step(RecordEnrollment(valid), left);
      actions := [a, b, c];
      AfterThree(old(state), a, b, c);
    }

    /** The end of a start: enable the agent and record it. */
    method Enable(lifetime: nat) returns (ok: bool, ghost actions: seq<Action>)
      requires state.process.EnrollmentSettled? || (state.process.Starting? && state.process.phase != Installed)
      modifies this
      ensures state == After(old(state), actions) && state.process.Idle? && state.calls == old(state).calls
      ensures ok <==> lifetime >= 2
      ensures ok ==> state.durable == Some(Stored(Started, false)) && state.agentEnabled
    {
      ghost var a, b;
      var left;
      left, a := Step(EnableAgent, lifetime);
      actions := [a];
      AfterCons(old(state), a, []);
      if !state.process.AgentUp? {
        return false, actions;
      }
      ok := left > 0;
      left, b := Step(RecordStart, left);
      actions := [a, b];
      AfterTwo(old(state), a, b);
    }

    /**
     `install --start`: enroll if needed, enable the agent, record. `lifetime` is the number of steps before a crash.
     */
    method Start(called: bool, leavesIdentity: bool, valid: bool, lifetime: nat) returns (ok: bool)
      requires Invariant(state) && state.process.Idle?
      modifies this
      ensures Invariant(state) && state.process.Idle?
      ensures state.calls <= old(state).calls + (if At(old(state), Installed) then 1 else 0)
      ensures ok ==> state.durable == Some(Stored(Started, false)) && state.agentEnabled
      ensures ok <==>
        || (IsEnrolled(old(state)) && lifetime >= 2)
        || (At(old(state), Installed) && called && leavesIdentity && valid && lifetime >= 5)
    {
      ghost var actions;
      ok, actions := TryStart(called, leavesIdentity, valid, lifetime);
      RunKeeps(old(state), actions);
    }

    method TryStart(called: bool, leavesIdentity: bool, valid: bool, lifetime: nat)
      returns (ok: bool, ghost actions: seq<Action>)
      requires state.process.Idle?
      modifies this
      ensures state == After(old(state), actions) && state.process.Idle?
      ensures state.calls <= old(state).calls + (if At(old(state), Installed) then 1 else 0)
      ensures ok ==> state.durable == Some(Stored(Started, false)) && state.agentEnabled
      ensures ok <==>
        && Complete(old(state).disk)
        && (|| (IsEnrolled(old(state)) && lifetime >= 2)
            || (At(old(state), Installed) && called && leavesIdentity && valid && !old(state).identity
              && lifetime >= 5))
    {
      actions := [BeginStart];
      AfterCons(state, BeginStart, []);
      state := Next(state, BeginStart);
      if !state.process.Starting? {
        return false, actions;
      }
      ghost var more;
      var left := lifetime;
      if state.process.phase == Installed {
        ghost var began := state;
        left, more := Enroll(called, leavesIdentity, valid, lifetime);
        AfterConcat(old(state), actions, more);
        actions := actions + more;
        if state.process.Idle? {
          return false, actions;
        }
      }
      ok, more := Enable(left);
      AfterConcat(old(state), actions, more);
      actions := actions + more;
    }
  }
}
