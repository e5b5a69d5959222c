# Verified model of the HeteroNetwork DEV and recovery tooling

Scripts that provision an isolated DEV environment, replace a database voter, stage releases and back up the
control plane make promises that hold over many runs: nothing is created that the journal does not account for, a
crash never leads to a second enrollment, a failed restore leaves nothing behind. This project models the logic
behind those promises in Dafny and proves them for every packet, membership, byte stream, unit graph and crash
schedule.

| module | models |
|---|---|
| `Nft`, `GuardCanonical`, `IsolationGuard` | nftables rules and how a packet is decided; the comparison of a live guard with the requested one; the rules `firewall` asks for and what they let through |
| `Provisioning` | the intent journal and the provisioning run, stopped anywhere |
| `Hotplug`, `AppStorage`, `Capacity` | where an app disk is plugged in and which definitions count as that addition; the interrupted attach and its readback; the storage budget |
| `DcsMembership`, `DcsCommit` | replacing one etcd voter; publishing the new authority by four renames |
| `RecoveryManifest`, `RecoverySet` | control-plane backup, verification and restore |
| `Enrollment` | installing, enrolling, starting and verifying a guest |
| `Sorting`, `StopClosure`, `DependencyNames` | which units stop with a unit; printing and parsing unit names |
| `TarStream` | the two readers of the native release archive |
| `Mounts` | the mount lookup for etcd snapshots |
| `OverlayRoster` | the recovery map of overlay peers |
| `Json` | compact JSON text, printed and read |
| `Numerals`, `Texts`, `Sequences`, `Finite`, `Wrappers` | numerals as the tools print and read them; bytes, white space and line breaks; regrouping of sequences; sizes of sets; option and result types |

Code that updates state step by step is a method or a class with a specification; a protocol that can be interrupted
is also a state machine whose actions include the crash, and its results quantify over every schedule of actions.
What commands, the kernel, the hypervisor, etcd, the backup store and source programs answer is a parameter:
each may succeed, fail, or be cut off. Clocks, random identifiers and digests are parameters too.

## What does not hold as one might read it

Each of these comes with an input or a schedule that shows it, and with the exact condition under which the
property does hold.

- A process killed between the four renames of a voter-replacement commit is not undone: bundle and archive are a
  whole pair exactly before the first and after the last rename (`DcsCommit.KilledIsWholeOnlyAtTheEnds`, with
  `DcsCommit.KilledHalfway` as the concrete mixed pair). Killed in the middle of the undo, the old pair stands exactly
  after its last step, and the new pair exactly if all four renames were made and no undo step was
  (`DcsCommit.KilledUndoingIsWholeOnlyAtTheEnds`). The same lemma says what is lost: after a failing final
  digest check, the undo overwrites the staged archive.
- The directory `previous` is left behind by every commit that got under way, so a rolled-back commit cannot be
  repeated with the same stage (`DcsCommit.OneAttempt`). Repeating the commands of a voter replacement therefore
  publishes the new voters if and only if they are published already or no commit has got as far as that directory
  (`DcsMembership.PublishableExactly`); `DcsMembership.KilledCommitIsFinal` is a run that never will.
- The new-quorum check compares the peers last listed under each name, so a member that shares its name with a later
  one goes unseen (`DcsMembership.ShadowedMemberPasses`, and `DcsMembership.ShadowedDeployment` for three voters). The
  check means exactly the new voters if and only if no two members share a name without sharing their peers
  (`DcsMembership.NamesCheckIsExact`), which holds on every run from the old voters.
- A guest can be `vpn-verified-local` with no sample since its agent was enabled, when a start run is cut off before
  its last journal write (`Enrollment.UnrecordedStartKeepsVerified`, reached from a fresh guest by
  `Enrollment.UnrecordedStartIsReachable`); this is the only way (`Enrollment.VerifiedSinceEnabled`). Counted from the
  recorded start the samples are always there.
- A guest can never continue if its install stopped before the first journal write, while the payload lacked a
  required binary or while a file was being written, or if its start stopped between the two writes around the
  enrollment call (`Enrollment.UnwrittenJournalIsFinal`, `Enrollment.HalfInstalledIsFinal`,
  `Enrollment.EnrollingIsFinal`; all are reached from a fresh guest by `Enrollment.LostIsReachable`). Every other
  interrupted guest can still be verified (`Enrollment.VerifiableExactly`).
- A guard reinstalled after a reboot and interrupted by a crash cannot be recovered by either command
  (`Provisioning.ReinstallationIsNotRecoverable`, from the fresh state). A pending intent can be cleared if and only
  if `recover-guard` accepts it as it stands (`Provisioning.PendingIsClearable`). A stopped run can be brought to its
  end if and only if that holds, or nothing is pending, the state directory is readable and every definition is as
  recorded (`Provisioning.CompletableExactly`).
- A first boot that stops after a start has rewritten a guest's definition and before the new hash is recorded shuts
  out every later run (`Provisioning.UnrecordedDefinitionIsFinal`).
- A very first journal write that is cut off leaves a temporary file that every later run refuses
  (`Provisioning.TornFirstSaveIsFinal`).
- The three replacements of the mount lookup undo the kernel's escaping if and only if the path has no newline
  (`Mounts.UnescapeUndoes`), so a mount point with a newline is missed (`Mounts.NewlineMountIsMissed`). The lookup is
  right if and only if every such mount that covers the target is outranked by one that is shown as it is
  (`Mounts.LookupIsRightExactly`).
- A restore that is killed after creating a file and before removing its last one leaves files that make every later
  restore into the directory fail; any other kill leaves it empty (`RecoverySet.EmptyAgainExactly`).
- Covering mount points of one length name one path only without trailing slashes (`Mounts.TrailingSlashesCover`,
  `Mounts.SameLengthSamePath`). The kernel prints none.

## Model

| member | source | states |
|---|---|---|
| GuardCanonical.CanonicalRuleExpressions | scripts/provision-dev-libvirt.py:667-697 | one pass over a rule yields exactly its canonical form, the specification the next two rows are about |
| GuardCanonical.CanonicalKeepsConjunction | scripts/provision-dev-libvirt.py:667-697 | dropping an implied protocol match never changes which well-formed packets satisfy a rule, under every meaning of the unmodelled operators |
| GuardCanonical.CanonicalIdempotent | scripts/provision-dev-libvirt.py:667-697 | normalising a rule twice is normalising it once |
| GuardCanonical.CanonicalGuard | scripts/provision-dev-libvirt.py:699-717 | refused exactly when an object is foreign; otherwise every object is filed once, in order, under its key and nothing else is |
| GuardCanonical.EqualGroups | scripts/provision-dev-libvirt.py:699-717 | two accepted documents have equal results exactly when every key has the same object list |
| GuardCanonical.SameCanonicalSameVerdict | scripts/provision-dev-libvirt.py:699-752 | documents with equal canonical guards decide every well-formed packet alike at every hook, through jumps, gotos and returns |
| IsolationGuard.Firewall | scripts/provision-dev-libvirt.py:235-283 | the batch built object by object is the guard document the isolation results are about |
| IsolationGuard.GuardChains | scripts/provision-dev-libvirt.py:235-283 | the batch declares exactly five chains, each with exactly its rules in order, for any rules |
| IsolationGuard.ForwardIsolation | scripts/provision-dev-libvirt.py:235-283 | a forwarded packet passes if and only if it is allowed: guest traffic is IPv4 with an underlay source and stays on the bridge or leaves outside every blocked and production network; traffic to guests is an IPv4 reply; the rest is not the guests' |
| IsolationGuard.InputIsolation | scripts/provision-dev-libvirt.py:235-283 | a packet to the host passes if and only if it is not a guest's, or is DHCP, DNS to the gateway, or a reply |
| IsolationGuard.BridgeIsolation | scripts/provision-dev-libvirt.py:278-283 | at every bridge hook exactly the IPv6 frames of the DEV bridge are dropped |
| IsolationGuard.AcceptedGuardIsolates | scripts/provision-dev-libvirt.py:731-777 | whatever document the kernel reads back, if its canonical guard equals the requested one then the live guard isolates at all five hooks |
| IsolationGuard.GuardDocumentAdmissible | scripts/provision-dev-libvirt.py:731-752 | the requested batch is never refused by the comparison itself |
| Provisioning.PlanIsSound | scripts/provision-dev-libvirt.py:1125-1259 | for any guests the guard is the first operation and no two operations create the same artifact |
| Provisioning.Journal.Save | scripts/provision-dev-libvirt.py:526-530 | the durable journal becomes the value in memory |
| Provisioning.Journal.Intent | scripts/provision-dev-libvirt.py:532-535 | accepted exactly when nothing is pending, and then durable at once; otherwise nothing changes |
| Provisioning.Journal.Record | scripts/provision-dev-libvirt.py:588-590 | adds one artifact in memory only |
| Provisioning.Journal.Done | scripts/provision-dev-libvirt.py:537-539 | clears the intent and makes all records durable in one write |
| Provisioning.Journal.Complete | scripts/provision-dev-libvirt.py:780-816 | an operation's artifacts become durable together with the end of its intent |
| Provisioning.RunKeeps | scripts/provision-dev-libvirt.py:1125-1316 | every schedule of steps, crashes, torn journal writes, reboots, first boots and recoveries keeps the invariant |
| Provisioning.NothingUnaccounted | scripts/provision-dev-libvirt.py:1125-1316 | after any schedule everything created is recorded or covered by the one pending intent, every record but the kernel table is real, no guest runs without the guard, no definition precedes it, and a verified boot has every artifact of the plan recorded |
| Provisioning.PendingFreezes | scripts/provision-dev-libvirt.py:543-586 | while an intent is pending, no later ordinary run creates, starts or records anything |
| Provisioning.DeadEnd | scripts/provision-dev-libvirt.py:543-586 | where nothing may continue, no schedule changes the journal or gets a run under way |
| Provisioning.PendingIsClearable | scripts/provision-dev-libvirt.py:543-586 | some schedule clears a pending intent if and only if the guard recovery accepts it as it stands |
| Provisioning.TornFirstSaveIsFinal | scripts/provision-dev-libvirt.py:526-570 | a first journal write cut off before its rename keeps every later run out |
| Provisioning.RecoveryAdoptsOnlyTheGuard | scripts/provision-dev-libvirt.py:755-777 | a recovery succeeds only where the guard is all there is, and adopts exactly that |
| Provisioning.ReinstallationIsNotRecoverable | scripts/provision-dev-libvirt.py:731-777 | for every plan one schedule from the fresh state leaves a second guard installation pending beside the first one's record, and no schedule after it changes the journal |
| Provisioning.CompletionIsExact | scripts/provision-dev-libvirt.py:1125-1259 | whenever a run reaches the end, however often it was interrupted, the journal records exactly the plan's artifacts, and all but the kernel table exist |
| Provisioning.CompletableExactly | scripts/provision-dev-libvirt.py:543-816 | wherever a run was stopped, some schedule still gets through the whole plan if and only if nothing is pending, the state directory is readable and every definition is as recorded, or the guard recovery accepts |
| Provisioning.UnrecordedDefinitionIsFinal | scripts/provision-dev-libvirt.py:1262-1278 | for every plan with a guest, a schedule from the fresh state stops between the start that rewrites its definition and the recording of the hash, and no later run gets under way |
| Hotplug.VerifyAdditionExact | scripts/expand-dev-storage.py:70-99 | the check accepts exactly the old definition, up to white space around text, with one correctly shaped app disk inserted among its devices, compared by its raw text |
| Hotplug.AdditionGrows | scripts/expand-dev-storage.py:95-99 | an accepted definition has exactly one device more, so an unchanged one is never accepted |
| Hotplug.UsedPositions | scripts/expand-dev-storage.py:112-114 | exactly the positions of the PCI addresses, refused when one is unreadable; decimal, hexadecimal, octal and binary literals with grouping are read |
| Hotplug.RootPortCandidates | scripts/expand-dev-storage.py:115-121 | the empty hotpluggable root ports in controller order |
| Hotplug.LegacyCandidates | scripts/expand-dev-storage.py:122-123 | the free slots 1 to 31 of the legacy root in order |
| Hotplug.CandidatesAreUsable | scripts/expand-dev-storage.py:108-125 | the list tried holds exactly the positions that are free and hotpluggable |
| Hotplug.Admit | scripts/expand-dev-storage.py:102-125 | the reviews pass exactly when the definition is ready and a position is left, and yield the positions in order |
| Hotplug.DiskXml | scripts/expand-dev-storage.py:102-136 | answers the specified request or refuses; its own final check never refuses |
| Hotplug.RequestIsSafe | scripts/expand-dev-storage.py:102-136 | a request exists exactly when the definition is ready and a position usable; it sits where no device is and passes the addition check when appended |
| Hotplug.PositionTaken | scripts/expand-dev-storage.py:112-126 | the new disk adds exactly its own position to those occupied |
| Numerals.HexRoundTrip | scripts/expand-dev-storage.py:113-132 | a printed hexadecimal position is read back as the same number |
| Numerals.DigitsRoundTrip | scripts/expand-dev-storage.py:113-132 | digits of any base from 2 to 16 are read back as the same number |
| AppStorage.HotplugIsSound | scripts/expand-dev-storage.py:95-136 | the hotplug checks meet what the interrupted run relies on |
| AppStorage.RunKeeps | scripts/expand-dev-storage.py:328-451 | every schedule of steps, crashes and readbacks keeps the invariant between journal and hypervisor |
| AppStorage.ReadbackEqualsUninterrupted | scripts/expand-dev-storage.py:328-451 | stopped anywhere in the attach, a readback leaves exactly the journal the uninterrupted run would leave and the hypervisor as it was |
| AppStorage.ReadbackBeforeAttachRefuses | scripts/expand-dev-storage.py:417-451 | until both definitions have changed, a readback refuses and changes nothing |
| AppStorage.AttachingIsAcknowledgeable | scripts/expand-dev-storage.py:417-451 | once attaching, a readback is accepted exactly when both definitions show the disk |
| AppStorage.JournalDescribesHypervisor | scripts/expand-dev-storage.py:328-451 | with nothing pending, every recorded hash is that of the definition in force, and every completed disk has its files |
| Capacity.StepConserves | scripts/expand-dev-storage.py:43-53 | one root growth, disk creation or disk growth moves slack into overhead and keeps their sum |
| Capacity.SlackIsConserved | scripts/expand-dev-storage.py:43-53 | over every sequence of them, available minus required plus bytes beyond 40 and 64 GiB is constant |
| Capacity.AdmissionLasts | scripts/expand-dev-storage.py:43-53 | after any run the budget admits exactly if the added overhead fits the slack there was, and then at least 133 GiB are free |
| Capacity.AdmittedThroughout | scripts/expand-dev-storage.py:43-53 | if the overhead at the end fits, the budget admitted after every step on the way |
| Capacity.PlannedUseIsFree | scripts/expand-dev-storage.py:43-53 | growth within 40 and 64 GiB never changes the slack of an admitted inventory |
| DcsMembership.MembersByPeer | scripts/migrate-secret-manager-dcs.py:124-133 | refused exactly when a member has not one peer URL of its own; otherwise the exact index |
| DcsMembership.Cluster.AddLearner | scripts/migrate-secret-manager-dcs.py:140-157 | in whatever membership it finds, adds at most the reviewed learner and only to exactly the named old voters; from a reviewed membership success means the learner is present, and it succeeds from the old voters when every call is answered |
| DcsMembership.Cluster.LearnerPresent | scripts/migrate-secret-manager-dcs.py:141-149 | answers no exactly for the named old voters, yes exactly beside the joining peer; foreign peers or names are refused |
| DcsMembership.Cluster.PromoteLearner | scripts/migrate-secret-manager-dcs.py:160-174 | in whatever membership it finds, promotes at most the joined learner beside exactly the reviewed peers, also when the answer is lost; from a reviewed membership it succeeds exactly for a joined learner or a repeated call, with every call answered |
| DcsMembership.Cluster.Leaver | scripts/migrate-secret-manager-dcs.py:177-191 | the member to remove is exactly the leaving voter beside all new voters of a healthy cluster |
| DcsMembership.Cluster.RetireOldVoter | scripts/migrate-secret-manager-dcs.py:177-192 | in whatever membership it finds, removes at most the leaving voter; from a reviewed one it succeeds exactly from four healthy voters with every call answered |
| DcsMembership.Cluster.HealthyNewQuorum | scripts/migrate-secret-manager-dcs.py:195-203 | accepts exactly when the last peers under each name are the new ones and nobody is a learner; in a known membership that is exactly the new one |
| DcsMembership.NamesCheckIsExact | scripts/migrate-secret-manager-dcs.py:196-202 | in any membership at all, being exactly the new voters is the name check together with no member being shadowed |
| DcsMembership.ShadowedMemberPasses | scripts/migrate-secret-manager-dcs.py:196-202 | for every topology, its new voters listed after a voter of a known name at an unknown peer pass the check, although that is a different membership |
| DcsMembership.ShadowedDeployment | scripts/migrate-secret-manager-dcs.py:196-202 | concretely for three voters, two of them staying |
| DcsMembership.Cluster.Commit | scripts/migrate-secret-manager-dcs.py:206-240 | succeeds exactly when the quorum check accepts and the renames commit, never changing the membership; what is left otherwise is what the commit leaves |
| DcsMembership.Cluster.Perform | scripts/migrate-secret-manager-dcs.py:243-262 | whatever the membership and the answers, a command leaves exactly the moment that the run results speak of |
| DcsMembership.Cluster.Run | scripts/migrate-secret-manager-dcs.py:243-262 | so has any number of commands one after the other |
| DcsMembership.StepMoves | scripts/migrate-secret-manager-dcs.py:140-217 | whatever the answers, an action makes one permitted move or none, and publishes only the new voters |
| DcsMembership.RunsStayReviewed | scripts/migrate-secret-manager-dcs.py:140-262 | from the old voters, every sequence of commands with every choice of failed, refused and lost answers and of failing or killed renames, and the new node joining at any time, is in one of the four reviewed memberships, never with fewer voters than at the start, and has published only the last |
| DcsMembership.RunsKeepMajorities | scripts/migrate-secret-manager-dcs.py:140-217 | across every action of every such run, any majority before it meets any majority after it |
| DcsMembership.PublishableExactly | scripts/migrate-secret-manager-dcs.py:140-262 | after every such run from a matching stage, some later commands publish the new voters if and only if they are published already or no commit has made its backup directory, and then repeating the commands in order does |
| DcsMembership.KilledCommitIsFinal | scripts/migrate-secret-manager-dcs.py:218-229 | a run whose commit is killed right after making its backup directory keeps the old authority, and nothing later changes its files or publishes |
| DcsMembership.MajoritiesMeet | scripts/migrate-secret-manager-dcs.py:140-192 | any majority before a permitted move meets any majority after it, for any topologies differing in one voter |
| DcsMembership.NeverFewerVoters | scripts/migrate-secret-manager-dcs.py:140-192 | in every reviewed membership the voters number the original count or one more |
| DcsMembership.NewIsFinal | scripts/migrate-secret-manager-dcs.py:140-203 | no permitted move leads out of the new membership |
| DcsCommit.Authority.Commit | scripts/migrate-secret-manager-dcs.py:206-240 | for every choice of failing renames and every moment of a kill, the outcome and the files are exactly the specified ones; normal return leaves the new pair, a rollback the old one, and a commit under way leaves `previous` behind |
| DcsCommit.Authority.Undo | scripts/migrate-secret-manager-dcs.py:231-237 | the outcome and the files of the handler are exactly the specified ones from any point, with every failing rename and every kill |
| DcsCommit.CommitLeaves | scripts/migrate-secret-manager-dcs.py:206-240 | which outcome leaves which pair: committed the new one, rolled back the old one, a failed undo never the old one; without obstacles a ready stage is always committed; a commit under way is never ready again |
| DcsCommit.KilledIsWholeOnlyAtTheEnds | scripts/migrate-secret-manager-dcs.py:221-229 | killed after k renames, the pair is whole if and only if k is 0 or 4, and nothing is lost |
| DcsCommit.KilledHalfway | scripts/migrate-secret-manager-dcs.py:221-229 | killed after two renames, a new bundle stands beside an old archive |
| DcsCommit.KilledUndoingIsWholeOnlyAtTheEnds | scripts/migrate-secret-manager-dcs.py:231-237 | killed after j undo steps: the old pair stands if and only if all were made, the new one if and only if all four renames and none were; nothing is lost but the staged archive of a complete commit |
| DcsCommit.OneAttempt | scripts/migrate-secret-manager-dcs.py:218-237 | after a commit got under way, however it ended, the same stage is refused |
| RecoveryManifest.Invoke | scripts/control_plane_dr.py:170-177 | collects a process's whole output, refused exactly when it fails or exceeds 256 KiB |
| RecoveryManifest.CheckComponents | scripts/control_plane_dr.py:293-301 | accepts exactly valid, distinctly named components and returns their names |
| RecoveryManifest.LoadManifest | scripts/control_plane_dr.py:280-304 | accepts exactly a bounded output under a snapshot identifier that decodes to a loadable manifest |
| RecoveryManifest.PayloadFits | scripts/control_plane_dr.py:266-284 | every loadable manifest dated by a 64-bit clock prints to at most 8400 bytes, below the reader's 256 KiB |
| RecoveryManifest.DecodeUndoesPayload | scripts/control_plane_dr.py:266-286 | every loadable manifest is decoded from its own printed payload |
| Json.LoadsUndoesPrinting | scripts/control_plane_dr.py:266-286 | for every value whose strings need no escape, reading its compact text gives it back |
| RecoverySet.ReadConfig | scripts/control_plane_dr.py:66-91 | accepts exactly 1 to 32 validly and distinctly named sources and two budgets of 1 byte to 4 TiB |
| RecoverySet.StreamSource | scripts/control_plane_dr.py:180-201 | passes on a prefix of the source never beyond its budget; reports exactly a successful, non-empty source within it |
| RecoverySet.Dump | scripts/control_plane_dr.py:224-238 | writes and measures what the store returns, never beyond the limit |
| RecoverySet.BackUpOne | scripts/control_plane_dr.py:252-265 | yields a component exactly when it was streamed, uploaded as one snapshot and read back with equal size and digest |
| RecoverySet.BackUpAll | scripts/control_plane_dr.py:248-265 | the specified components, each within what is left of the budget, logged as read back in order |
| RecoverySet.Backup | scripts/control_plane_dr.py:241-277 | every source is read back before the commit is written; a commit is only ever the manifest of all of them; success exactly when all hold and the commit is read back equal |
| RecoverySet.GatheredIsSound | scripts/control_plane_dr.py:248-265 | every component is valid, within the component budget, describes its source's bytes and was read back; the sizes sum to at most the total budget |
| RecoverySet.CommittedIsLoadable | scripts/control_plane_dr.py:241-304 | every committed manifest is accepted by the reader, within its bound, with the budgets kept and every component read back |
| RecoverySet.Verify | scripts/control_plane_dr.py:307-316 | accepts exactly a loadable manifest whose components all match what the store returns |
| RecoverySet.Directory.Restore | scripts/control_plane_dr.py:319-354 | whatever the store returns and whenever it is killed: done exactly for an empty directory and matching components, leaving exactly their files; failed leaves the directory as it was; killed leaves exactly the part it had come to; a directory that is not empty fails |
| RecoverySet.Directory.Fetch | scripts/control_plane_dr.py:325-352 | all files, or none after the first mismatch; killed at step k, the first k components and at most a short next one, or the files not yet removed |
| RecoverySet.Directory.Discard | scripts/control_plane_dr.py:346-352 | removes exactly what was created, or the first k names when killed after k |
| RecoverySet.Directory.Abandon | scripts/control_plane_dr.py:346-352 | after the first mismatch, nothing is left, or exactly the names not yet removed |
| RecoverySet.EmptyAgainExactly | scripts/control_plane_dr.py:325-352 | a killed restore leaves an empty directory if and only if it was killed before its first file or after its last removal |
| RecoverySet.RestoredIsTheManifest | scripts/control_plane_dr.py:330-345 | the files of a complete restore have the manifest's names, sizes and digests, and there are no others |
| RecoverySet.RestoreUndoesBackup | scripts/control_plane_dr.py:241-354 | with a store that returns what was streamed in, the printed manifest of a committed snapshot is decoded and accepted, and restoring gives back exactly every source's bytes |
| Enrollment.EnrollsAtMostOnce | scripts/bootstrap-dev-guest.py:356-434 | over every schedule of commands and crashes: at most one enrollment call, no call and no enabled agent without every file in place, no enabled agent without a recorded enrollment, no verified guest without 13 passing samples since the recorded start |
| Enrollment.EnrollingIsFinal | scripts/bootstrap-dev-guest.py:408-429 | a guest left in `enrolling` is never changed again by any schedule |
| Enrollment.UnwrittenJournalIsFinal | scripts/bootstrap-dev-guest.py:360-373 | a first install stopped before its first journal write is never continued by any schedule |
| Enrollment.HalfInstalledIsFinal | scripts/bootstrap-dev-guest.py:386-407 | an install that stopped while the payload lacked a required binary, or inside the writing of a file, is never recorded by any schedule |
| Enrollment.LostIsReachable | scripts/bootstrap-dev-guest.py:360-425 | all four ways to be lost are reached from a fresh guest |
| Enrollment.VerifiableExactly | scripts/bootstrap-dev-guest.py:356-579 | wherever the commands were stopped, some schedule still gets the guest verified if and only if it was not before the first journal write, not with an incomplete payload or a torn file, and not between the two writes around the enrollment |
| Enrollment.UnrecordedStartKeepsVerified | scripts/bootstrap-dev-guest.py:430-433 | a start cut off before its last write leaves a verified phase without samples since the enabling |
| Enrollment.UnrecordedStartIsReachable | scripts/bootstrap-dev-guest.py:356-579 | a schedule from a fresh guest leads there |
| Enrollment.VerifiedSinceEnabled | scripts/bootstrap-dev-guest.py:356-579 | counted from the enabling of the agent, a verified guest has its samples if and only if no start is unrecorded |
| Enrollment.Guest.VerifyVpn | scripts/bootstrap-dev-guest.py:542-579 | verified exactly when all 13 samples and the interval pass; otherwise the verdict is withdrawn |
| Enrollment.Guest.Enroll | scripts/bootstrap-dev-guest.py:419-429 | the bracketed call is made at most once, and settled exactly when it succeeds, leaves a valid identity and is recorded |
| Enrollment.Guest.Start | scripts/bootstrap-dev-guest.py:408-434 | succeeds exactly from an installed guest with a valid enrollment or an enrolled one, if the process lives long enough |
| Sorting.SortUniqueIsSorted | scripts/native-release-inventory.py:161-161 | the sorted set is ascending and has exactly the given names |
| Sorting.SortSet | scripts/native-release-inventory.py:452-459 | lists a set in ascending order |
| StopClosure.BuildEdges | scripts/native-release-inventory.py:427-438 | the edge map holds exactly the stop edges either side declares between inspected units |
| StopClosure.Search | scripts/native-release-inventory.py:445-451 | terminates with exactly the other units reachable through one or more stop edges |
| StopClosure.OutsideByUnit | scripts/native-release-inventory.py:439-441 | each unit's uninspected dependents by its last record |
| StopClosure.DependencyClosure | scripts/native-release-inventory.py:426-459 | for every unit graph: per origin exactly what stops with it and exactly the uninspected dependents at that set's edge; the two global lists are exact; all ascending |
| DependencyNames.ParseUndoesPrinting | scripts/native-release-inventory.py:136-161 | for every list of at most 256 valid names, parsing what systemd prints yields the sorted set of them; no bound rejects it |
| DependencyNames.ParsedIsNormal | scripts/native-release-inventory.py:145-161 | whatever is accepted is an ascending list of at most 256 valid names that prints to an equivalent input |
| TarStream.HeaderIsPrefixDecided | scripts/native-release-stage.py:274-280 | the executable check depends on the first 64 bytes only |
| TarStream.EndMarker | scripts/native-release-stage.py:310-314 | accepts exactly two zero blocks and at most 65536 further zeros |
| TarStream.CopyPayload | scripts/native-release-stage.py:329-341 | a chunked copy is the member's bytes, accepted exactly when all are there and a required binary is an executable |
| TarStream.StageMember | scripts/native-release-stage.py:315-350 | takes exactly the reference reading's next member under the staging limits |
| TarStream.UnpackVerifiedArchive | scripts/native-release-stage.py:294-351 | the streaming loop is the reference reading of the staging reader |
| TarStream.BundleMember | scripts/build-dev-sudo-active-bundle.py:74-89 | takes exactly the reference reading's next member under the bundle limits |
| TarStream.NativePayloads | scripts/build-dev-sudo-active-bundle.py:59-91 | the in-memory loop is the reference reading of the bundle reader |
| TarStream.ReadersAgree | scripts/native-release-stage.py:294-351 | the staging reader accepts a stream with some contents if and only if the bundle reader accepts it with the same contents and these respect the helper limit and name form |
| TarStream.ReadsExactlyTheFormat | scripts/native-release-stage.py:294-351 | a reader accepts exactly the archives of the format, yields exactly their members, and the length is headers, padded members, the 1024-byte end marker and at most 65536 zeros |
| Mounts.UnescapeUndoes | scripts/control_plane_dr_etcd_source.py:28-28 | the three replacements undo the kernel's escaping if and only if the path has no newline |
| Mounts.UnescapeShows | scripts/control_plane_dr_etcd_source.py:28-28 | they leave exactly the newlines of a path escaped |
| Mounts.CoversIsPrefix | scripts/control_plane_dr_etcd_source.py:29-29 | the string test means that the target is the mount point or below it, component by component |
| Mounts.CoveringRows | scripts/control_plane_dr_etcd_source.py:23-30 | exactly the rows of covering lines, with their lengths, positions, kinds and options |
| Mounts.Highest | scripts/control_plane_dr_etcd_source.py:35-35 | the greatest row by length, then by position |
| Mounts.MountsFor | scripts/control_plane_dr_etcd_source.py:21-35 | refused exactly when no line covers; otherwise describes the last of the longest covering lines |
| Mounts.LookupFindsTheTopmostShown | scripts/control_plane_dr_etcd_source.py:21-35 | for every table the kernel prints, the chosen line is exactly the deepest and latest of the mount points as they are shown |
| Mounts.ShownAsItIs | scripts/control_plane_dr_etcd_source.py:28-28 | a mount point is shown as it is exactly when it has no newline |
| Mounts.LookupIsRightExactly | scripts/control_plane_dr_etcd_source.py:21-35 | the lookup picks the visible mount if and only if every mount shown differently that covers the target, as it is or as shown, lies below one shown as it is |
| Mounts.NewlineMountIsMissed | scripts/control_plane_dr_etcd_source.py:21-35 | with mounts at the root and at a path with a newline, a path below lies on the second, and the first is chosen |
| Mounts.LookupFindsTheVisibleMount | scripts/control_plane_dr_etcd_source.py:21-35 | for every table the kernel prints whose mount points have no newline, the chosen line is exactly the deepest and latest mount at or above the target, with its kind and options |
| Mounts.SameLengthSamePath | scripts/control_plane_dr_etcd_source.py:29-35 | covering mount points of one length without trailing slash are one path |
| Mounts.TrailingSlashesCover | scripts/control_plane_dr_etcd_source.py:29-35 | with trailing slashes two different strings of one length cover a path |
| OverlayRoster.WithoutIsExact | scripts/node_lifecycle.py:26-28 | the active peers are exactly the peers not bound to a stopped host |
| OverlayRoster.SeeAll | scripts/reconcile-overlay-boot.py:57-59 | accepted exactly when none of a peer's five values was seen, and then adds them all |
| OverlayRoster.EndpointsOk | scripts/reconcile-overlay-boot.py:62-68 | accepts exactly a non-empty list of direct endpoints of the peer itself |
| OverlayRoster.CheckPeers | scripts/reconcile-overlay-boot.py:50-70 | accepts exactly valid peers of which no two share a value, and finds this host's entry |
| OverlayRoster.RecoveryMap | scripts/reconcile-overlay-boot.py:39-79 | accepts exactly a valid roster that binds this registered, active host, and returns the specified map |
| OverlayRoster.Agent.Reconcile | scripts/reconcile-overlay-boot.py:82-122 | changes the state exactly when approved, not a check, out of date and not overtaken by the agent's own write, which is never overwritten |
| OverlayRoster.ReconcilingSettles | scripts/reconcile-overlay-boot.py:90-113 | a second run changes nothing, whatever the clock says, and `updated_at` never moves backwards |
| OverlayRoster.HostsAreDistinct | scripts/reconcile-overlay-boot.py:46-47 | in an accepted roster different hosts are bound to different nodes |
| OverlayRoster.SettledListsExactly | scripts/reconcile-overlay-boot.py:75-79 | a settled host lists another host's node if and only if that host is another one and not stopped |
| OverlayRoster.HostSettles | scripts/reconcile-overlay-boot.py:82-122 | over every schedule of runs an approved host settles at its first real run and stays so |
| OverlayRoster.ActiveHostsFindEachOther | scripts/reconcile-overlay-boot.py:39-122 | over every interleaving of runs, two active hosts that have run are in each other's maps, and no map holds a stopped host or its owner |

## Left out

- Command lines, subprocess handling, timeouts, signals and the parsing of tool output, except where a row above says otherwise.
- XML, gzip, base64 and IP-address parsing, SHA-256 and tar header decoding, and JSON but for the backup manifest: functions on decoded data, some of them parameters.
- File ownership, mode, symlink, inode and link-count checks: one-branch guards over metadata.
- `repair_seed` and the guest clean-up of `provision-dev-libvirt.py`, the SSH probes and the undo of `first_boot`, whose guests start, stop and are verified in any order here, `preflight`, `verify_image` and `render`.
- `inventory`, `pool_file` and `preallocate` of `expand-dev-storage.py`: one health flag per moment stands for them.
- `prepare` and `stage_valid` of `migrate-secret-manager-dcs.py`: the staged pair they check is an input.
- Release selection and the sudo bundle of `native-release-stage.py`, and `inventory` of `native-release-inventory.py`: sequences of comparisons with the manifest, each of which refuses on its own.
- `Source.backup` and the database sources of the control-plane backup.
- GuardCanonical.CanonicalGuard: returns the groups as a map; the sorted list built from it adds only the key order.
- Provisioning.NothingUnaccounted: the state directory and its lock are not counted as artifacts; the journal's temporary file is modelled by its presence only.
- Hotplug.VerifyAdditionExact: elements have attributes, text and children; text between child elements is not modelled.
- Hotplug.UsedPositions: a literal with a sign, surrounding white space or digits outside ASCII counts as unreadable, because libvirt prints none of these.
- Provisioning.CompletableExactly: of a definition only its agreement with the recorded hash is modelled, and only a guest's start changes it.
- Enrollment.VerifiableExactly: of the release only its three required binaries are followed through the unpacking, and a file either is the right one or is not.
- DcsMembership.RunsStayReviewed: a run consists of these actions and the new node joining; members changed by anyone else are not part of it.
- Json.LoadsUndoesPrinting: the reader knows text without escapes, fractions or exponents, which is all that a manifest's text holds.
- RecoverySet.Directory.Restore: nobody else writes into the directory meanwhile; what a failing store command had already sent is not modelled.
- Mounts.LookupIsRightExactly: a mount point is printed with space, tab, newline and backslash escaped; rows whose fields would hold a separator after escaping, such as a form feed in a path, are excluded, because the code splits there.
- OverlayRoster.Agent.Reconcile: unknown extra keys of a cached map are not modelled; the agent's own writes appear only before the final comparison.
- TarStream.UnpackVerifiedArchive: the archive digest before extraction, directory modes and syncs are not modelled; nor are the files a refused run leaves in its slot.
