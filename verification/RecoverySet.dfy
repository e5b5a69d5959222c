/**
 Control-plane recovery sets: every source is streamed within a size budget, uploaded and read back before a
 manifest is committed; a restore recreates every component or leaves nothing. What the source programs and
 the backup store answer is arbitrary input here.
 */
module RecoverySet {
  import opened Wrappers
  import opened Texts
  import opened RecoveryManifest

  datatype Config = Config(sources: seq<string>, maxComponent: int, maxTotal: int)

  /** What `read_config` guarantees to a backup. */
  predicate ConfigOk(c: Config) {
    && 1 <= |c.sources| <= 32 && (forall i :: 0 <= i < |c.sources| ==> IsName(c.sources[i])) && Distinct(c.sources)
    && 0 < c.maxComponent <= MAX_BACKUP && 0 < c.maxTotal <= MAX_BACKUP
  }

  /** The named sources and the two budgets of `read_config`. */
  method ReadConfig(c: Config) returns (ok: bool)
    ensures ok <==> ConfigOk(c)
  {
    if c.sources == [] || |c.sources| > 32 {
      return false;
    }
    var seen: set<string> := {};
    for i := 0 to |c.sources|
      invariant forall j :: 0 <= j < i ==> IsName(c.sources[j])
      invariant Collected(c.sources[..i], seen)
    {
      var name := c.sources[i];
      if name in seen {
        Repeated(c.sources, i);
        return false;
      }
      if !IsName(name) {
        return false;
      }
      OneMore(c.sources, i, seen);
      seen := seen + {name};
    }
    assert c.sources[..|c.sources|] == c.sources;
    ok := 0 < c.maxComponent <= MAX_BACKUP && 0 < c.maxTotal <= MAX_BACKUP;
  }

  // ---------- one stream ----------

  /** A source program's output and whether it exited with success. */
  datatype SourceRun = SourceRun(chunks: Chunks, succeeded: bool)

  datatype Report = Report(size: int, sha256: string)

  type Digest = Bytes -> string

  ghost predicate PrintsHex(digest: Digest) { forall b :: IsHex(digest(b), 64, 64) }

  /** The report of a source within its budget. */
  function Reported(digest: Digest, run: SourceRun, budget: int): Result<Report> {
    var data := Concat(run.chunks);
    if 0 < |data| <= budget && run.succeeded then Accepted(Report(|data|, digest(data))) else Refused
  }

  /** What a read-back of at most `limit` bytes measures. */
  function Measured(digest: Digest, output: Result<Chunks>, limit: int): Result<Report> {
    if output.Accepted? && |Concat(output.value)| <= limit
    then Accepted(Report(|Concat(output.value)|, digest(Concat(output.value)))) else Refused
  }

  /** `stream_source`: passes the source on, never beyond its budget, and reports only a complete, non-empty one. */
  method StreamSource(digest: Digest, run: SourceRun, budget: int) returns (written: Bytes, r: Result<Report>)
    ensures r == Reported(digest, run, budget)
    ensures written <= Concat(run.chunks) && (written == [] || |written| <= budget)
    ensures r.Accepted? ==> written == Concat(run.chunks)
  {
    var cs := run.chunks;
    var size := 0;
    written := [];
    for i := 0 to |cs|
      invariant written == Concat(cs[..i]) && size == |written| && (written == [] || size <= budget)
    {
      ConcatNext(cs, i);
      ConcatGrows(cs, i + 1);
      ConcatGrows(cs, i);
      size := size + |cs[i]|;
      if size > budget {
        return written, Refused;
      }
      written := written + cs[i];
    }
    assert cs[..|cs|] == cs;
    if !run.succeeded || size == 0 {
      return written, Refused;
    }
    r := Accepted(Report(size, digest(written)));
  }

  /** `dump`: measures what the store returns and writes it out, never beyond the limit. */
  method Dump(digest: Digest, snapshot: string, name: string, output: Result<Chunks>, limit: int)
    returns (r: Result<Report>, target: Bytes)
    requires limit >= 0
    ensures r == if IsSnapshot(snapshot) && IsName(name) then Measured(digest, output, limit) else Refused
    ensures |target| <= limit && (output.Accepted? ==> target <= Concat(output.value))
    ensures r.Accepted? ==> target == Concat(output.value)
  {
    target := [];
    if !IsSnapshot(snapshot) || !IsName(name) || output.Refused? {
      return Refused, target;
    }
    var cs := output.value;
    var size := 0;
    for i := 0 to |cs|
      invariant target == Concat(cs[..i]) && size == |target| <= limit
    {
      ConcatNext(cs, i);
      ConcatGrows(cs, i + 1);
      size := size + |cs[i]|;
      if size > limit {
        return Refused, target;
      }
      target := target + cs[i];
    }
    assert cs[..|cs|] == cs;
    r := Accepted(Report(size, digest(target)));
  }

  // ---------- backup ----------

  /** What the outside answers for one component: the source, the store's snapshot summaries, the read-back. */
  datatype Attempt = Attempt(run: SourceRun, upload: Result<seq<string>>, output: Result<Chunks>)

  /** `summary`: exactly one snapshot identifier. */
  function Summary(upload: Result<seq<string>>): (r: Result<string>)
    ensures r.Accepted? ==> IsSnapshot(r.value)
  {
    if upload.Accepted? && |upload.value| == 1 && IsSnapshot(upload.value[0]) then Accepted(upload.value[0])
       else Refused
  }

  function Budget(c: Config, total: int): int {
    if c.maxComponent < c.maxTotal - total then c.maxComponent else c.maxTotal - total
  }

  /** The component an attempt yields: streamed within budget, uploaded, and read back equal. */
  function Attempted(digest: Digest, name: string, a: Attempt, budget: int): Result<Component> {
    var report, snapshot := Reported(digest, a.run, budget), Summary(a.upload);
    if report.Accepted? && snapshot.Accepted? && Measured(digest, a.output, report.value.size) == report
    then Accepted(Component(name, snapshot.value, report.value.size, report.value.sha256)) else Refused
  }

  method BackUpOne(digest: Digest, name: string, a: Attempt, budget: int) returns (r: Result<Component>)
    requires IsName(name)
    ensures r == Attempted(digest, name, a, budget)
  {
    var written, report := StreamSource(digest, a.run, budget);
    var snapshot := Summary(a.upload);
    if snapshot.Refused? || report.Refused? {
      return Refused;
    }
    var actual, discarded := Dump(digest, snapshot.value, name, a.output, report.value.size);
    if actual != report {
      return Refused;
    }
    r := Accepted(Component(name, snapshot.value, report.value.size, report.value.sha256));
  }

  /** The components of sources `k` and after, with `total` bytes already taken. */
  function Gathered(digest: Digest, c: Config, attempts: seq<Attempt>, k: nat, total: int): Result<seq<Component>>
    requires k <= |c.sources| == |attempts|
    decreases |c.sources| - k
  {
    if k == |c.sources| then Accepted([])
    else
      var item := Attempted(digest, c.sources[k], attempts[k], Budget(c, total));
      if item.Refused? then Refused
      else
        var more := Gathered(digest, c, attempts, k + 1, total + item.value.size);
        if more.Refused? then Refused else Accepted([item.value] + more.value)
  }

  datatype Event = ReadBack(source: nat) | CommitWritten(payload: Bytes) | CommitReadBack

  /** Every source is read back, in order, before the commit is written, and that is read back last. */
  predicate Orderly(log: seq<Event>, sources: nat) {
    && |log| <= sources + 2
    && forall i :: 0 <= i < |log| ==>
         if i < sources then log[i] == ReadBack(i) else if i == sources then log[i].CommitWritten?
            else log[i].CommitReadBack?
  }

  datatype Committed = Committed(manifest: Manifest, snapshot: string)

  function ManifestFor(c: Config, runId: string, now: int, components: seq<Component>): Manifest {
    Manifest(1, runId, now, REQUIRED <= Elements(c.sources), components)
  }

  /** The store's answers for the manifest itself: one snapshot, read back equal. */
  predicate CommitHolds(digest: Digest, payload: Bytes, commit: Result<seq<string>>, output: Result<Chunks>) {
    Summary(commit).Accepted? && Measured(digest, output, |payload|) == Accepted(Report(|payload|, digest(payload)))
  }

  /**
   `backup`. `commit` and `output` are the store's answers for the manifest. A commit is written only once
   every source has been read back equal, and it is the manifest of exactly those components.
   */
  method Backup(digest: Digest, c: Config, requireComplete: bool, attempts: seq<Attempt>, runId: string, now: int,
                commit: Result<seq<string>>, output: Result<Chunks>)
    returns (r: Result<Committed>, log: seq<Event>)
    requires ConfigOk(c) && |attempts| == |c.sources|
    ensures Orderly(log, |c.sources|) && (r.Accepted? <==> |log| == |c.sources| + 2)
    ensures forall p :: CommitWritten(p) in log ==> IsPayload(digest, c, attempts, runId, now, p)
    ensures r.Accepted? <==>
              && (requireComplete ==> REQUIRED <= Elements(c.sources))
              && exists p :: IsPayload(digest, c, attempts, runId, now, p) && CommitHolds(digest, p, commit, output)
    ensures r.Accepted? ==> BackedUp(digest, c, attempts, runId, now, r.value)
  {
    log := [];
    if requireComplete && !(REQUIRED <= Elements(c.sources)) {
      return Refused, log;
    }
    var components;
    components, log := BackUpAll(digest, c, attempts);
    if components.Refused? {
      return Refused, log;
    }
    var manifest := ManifestFor(c, runId, now, components.value);
    var payload := Payload(manifest);
    assert IsPayload(digest, c, attempts, runId, now, payload);
    log := log + [CommitWritten(payload)];
    var snapshot := ReadCommitBack(digest, payload, commit, output);
    if snapshot.Refused? {
      return Refused, log;
    }
    log := log + [CommitReadBack];
    r := Accepted(Committed(manifest, snapshot.value));
  }

  /** Source after source within what is left of the budget, stopping at the first that fails. */
  method BackUpAll(digest: Digest, c: Config, attempts: seq<Attempt>)
    returns (r: Result<seq<Component>>, log: seq<Event>)
    requires ConfigOk(c) && |attempts| == |c.sources|
    ensures r == Gathered(digest, c, attempts, 0, 0)
    ensures |log| <= |c.sources| && (r.Accepted? <==> |log| == |c.sources|)
    ensures forall i :: 0 <= i < |log| ==> log[i] == ReadBack(i)
  {
    log := [];
    var components, total := [], 0;
    StartGathering(digest, c, attempts);
    for k := 0 to |c.sources|
      invariant |log| == k && forall i :: 0 <= i < k ==> log[i] == ReadBack(i)
      invariant Gathered(digest, c, attempts, 0, 0) == Prepend(components, Gathered(digest, c, attempts, k, total))
    {
      var item := BackUpOne(digest, c.sources[k], attempts[k], Budget(c, total));
      GatherOne(digest, c, attempts, k, total, components, item);
      if item.Refused? {
        return Refused, log;
      }
      log := log + [ReadBack(k)];
      components := components + [item.value];
      total := total + item.value.size;
    }
    assert components + [] == components;
    r := Accepted(components);
  }

  method ReadCommitBack(digest: Digest, payload: Bytes, commit: Result<seq<string>>, output: Result<Chunks>)
    returns (r: Result<string>)
    ensures r == if CommitHolds(digest, payload, commit, output) then Summary(commit) else Refused
  {
    var committed := Summary(commit);
    if committed.Refused? {
      return Refused;
    }
    var actual, discarded := Dump(digest, committed.value, "manifest", output, |payload|);
    r := if actual == Accepted(Report(|payload|, digest(payload))) then committed else Refused;
  }

  /** All sources were streamed within budget and read back, and `p` is the manifest that says so. */
  ghost predicate IsPayload(digest: Digest, c: Config, attempts: seq<Attempt>, runId: string, now: int, p: Bytes)
    requires |attempts| == |c.sources|
  {
    var components := Gathered(digest, c, attempts, 0, 0);
    components.Accepted? && p == Payload(ManifestFor(c, runId, now, components.value))
  }

  ghost predicate BackedUp(digest: Digest, c: Config, attempts: seq<Attempt>, runId: string, now: int, done: Committed)
    requires |attempts| == |c.sources|
  {
    && Gathered(digest, c, attempts, 0, 0) == Accepted(done.manifest.components)
    && done.manifest == ManifestFor(c, runId, now, done.manifest.components) && IsSnapshot(done.snapshot)
  }

  function Prepend(components: seq<Component>, more: Result<seq<Component>>): Result<seq<Component>> {
    if more.Refused? then Refused else Accepted(components + more.value)
  }

  lemma StartGathering(digest: Digest, c: Config, attempts: seq<Attempt>)
    requires |attempts| == |c.sources|
    ensures Gathered(digest, c, attempts, 0, 0) == Prepend([], Gathered(digest, c, attempts, 0, 0))
  {
    var all := Gathered(digest, c, attempts, 0, 0);
    if all.Accepted? { assert [] + all.value == all.value; }
  }

  lemma GatherOne(digest: Digest, c: Config, attempts: seq<Attempt>, k: nat, total: int, components: seq<Component>,
                  item: Result<Component>)
    requires k < |c.sources| == |attempts| && item == Attempted(digest, c.sources[k], attempts[k], Budget(c, total))
    ensures Prepend(components, Gathered(digest, c, attempts, k, total)) ==
              if item.Refused? then Refused
              else Prepend(components + [item.value], Gathered(digest, c, attempts, k + 1, total + item.value.size))
  {
    if item.Accepted? {
      var more := Gathered(digest, c, attempts, k + 1, total + item.value.size);
      if more.Accepted? { assert components + ([item.value] + more.value) == components + [item.value] + more.value; }
    }
  }

  // ---------- what a committed set guarantees ----------

  function Sum(components: seq<Component>): int {
    if components == [] then 0 else components[0].size + Sum(components[1..])
  }

  /** A component describes its source's bytes, and the store returned bytes of that size and digest. */
  ghost predicate Describes(digest: Digest, item: Component, name: string, a: Attempt) {
    var data := Concat(a.run.chunks);
    && item.name == name && item.size == |data| && item.sha256 == digest(data) && a.run.succeeded
    && Summary(a.upload) == Accepted(item.snapshot)
    && a.output.Accepted? && |Concat(a.output.value)| == item.size && digest(Concat(a.output.value)) == item.sha256
  }

  ghost predicate Good(digest: Digest, c: Config, item: Component, name: string, a: Attempt) {
    Describes(digest, item, name, a) && ComponentOk(item) && item.size <= c.maxComponent
  }

  lemma AttemptIsSound(digest: Digest, c: Config, name: string, a: Attempt, total: int)
    requires PrintsHex(digest) && IsName(name) && c.maxComponent <= MAX_BACKUP
             && Attempted(digest, name, a, Budget(c, total)).Accepted?
    ensures var item := Attempted(digest, name, a, Budget(c, total)).value;
            Good(digest, c, item, name, a) && item.size <= c.maxTotal - total
  {
  }

  /** Each item describes the source at its place, from source `k` on. */
  ghost predicate AllGood(digest: Digest, c: Config, attempts: seq<Attempt>, k: nat, items: seq<Component>)
    requires |attempts| == |c.sources|
  {
    k + |items| == |c.sources| && forall i :: 0 <= i < |items| ==>
      Good(digest, c, items[i], c.sources[k + i], attempts[k + i])
  }

  lemma AllGoodCons(digest: Digest, c: Config, attempts: seq<Attempt>, k: nat, item: Component, more: seq<Component>)
    requires |attempts| == |c.sources| && k < |c.sources|
    requires Good(digest, c, item, c.sources[k], attempts[k]) && AllGood(digest, c, attempts, k + 1, more)
    ensures AllGood(digest, c, attempts, k, [item] + more)
  {
    var items := [item] + more;
    forall i | 0 <= i < |items|
      ensures Good(digest, c, items[i], c.sources[k + i], attempts[k + i])
    {
      if i > 0 { assert Good(digest, c, more[i - 1], c.sources[(k + 1) + (i - 1)], attempts[(k + 1) + (i - 1)]); }
    }
  }

  /** Every gathered component is within its budget, the sizes stay within the total, and each was read back. */
  lemma {:induction false} GatheredIsSound(digest: Digest, c: Config, attempts: seq<Attempt>, k: nat, total: int)
    requires PrintsHex(digest) && ConfigOk(c) && k <= |c.sources| == |attempts| && 0 <= total <= c.maxTotal
    requires Gathered(digest, c, attempts, k, total).Accepted?
    ensures var items := Gathered(digest, c, attempts, k, total).value;
            AllGood(digest, c, attempts, k, items) && total + Sum(items) <= c.maxTotal
    decreases |c.sources| - k
  {
    if k < |c.sources| {
      var item := Attempted(digest, c.sources[k], attempts[k], Budget(c, total)).value;
      AttemptIsSound(digest, c, c.sources[k], attempts[k], total);
      GatheredIsSound(digest, c, attempts, k + 1, total + item.size);
      var more := Gathered(digest, c, attempts, k + 1, total + item.size).value;
      AllGoodCons(digest, c, attempts, k, item, more);
      assert ([item] + more)[1..] == more;
    }
  }

  /**
   Every committed manifest is one `load_manifest` accepts, within its 256 KiB; its sizes are positive, within
   the component budget, and sum to at most the total budget; and every component was read back equal.
   */
  lemma CommittedIsLoadable(digest: Digest, c: Config, attempts: seq<Attempt>, runId: string, now: int, done: Committed)
    requires PrintsHex(digest) && ConfigOk(c) && |attempts| == |c.sources| && IsHex(runId, 32, 32)
             && 0 <= now < TIME_LIMIT
    requires BackedUp(digest, c, attempts, runId, now, done)
    ensures Loadable(done.manifest) && |Payload(done.manifest)| <= MAX_MANIFEST
            && Sum(done.manifest.components) <= c.maxTotal
    ensures |done.manifest.components| == |c.sources|
    ensures forall i :: 0 <= i < |c.sources| ==>
              0 < done.manifest.components[i].size <= c.maxComponent
                && Describes(digest, done.manifest.components[i], c.sources[i], attempts[i])
  {
    GatheredIsSound(digest, c, attempts, 0, 0);
    assert Names(done.manifest.components) == c.sources;
    PayloadFits(done.manifest);
  }

  // ---------- restore ----------

  predicate Matches(digest: Digest, item: Component, output: Result<Chunks>) {
    Measured(digest, output, item.size) == Accepted(Report(item.size, item.sha256))
  }

  /** `verify`. */
  method Verify(digest: Digest, decode: Bytes -> Option<Manifest>, snapshot: string, output: Result<Chunks>,
                outputs: seq<Result<Chunks>>)
    returns (r: Result<Manifest>)
    requires Loaded(decode, snapshot, output).Accepted? ==>
               |outputs| == |Loaded(decode, snapshot, output).value.components|
    ensures r.Accepted? <==>
              && Loaded(decode, snapshot, output).Accepted?
              && forall i :: 0 <= i < |outputs| ==>
                Matches(digest, Loaded(decode, snapshot, output).value.components[i], outputs[i])
    ensures r.Accepted? ==> r == Loaded(decode, snapshot, output)
  {
    r := LoadManifest(decode, snapshot, output);
    if r.Refused? {
      return;
    }
    var items := r.value.components;
    for i := 0 to |items|
      invariant forall j :: 0 <= j < i ==> Matches(digest, items[j], outputs[j])
    {
      var actual, discarded := Dump(digest, items[i].snapshot, items[i].name, outputs[i], items[i].size);
      if actual != Accepted(Report(items[i].size, items[i].sha256)) {
        return Refused;
      }
    }
  }

  /** The files of a complete restore. */
  function Restored(items: seq<Component>, outputs: seq<Result<Chunks>>): map<string, Bytes>
    requires |items| == |outputs| && forall i :: 0 <= i < |outputs| ==> outputs[i].Accepted?
  {
    if items == [] then map[]
    else
      var n := |items| - 1;
      Restored(items[..n], outputs[..n])[items[n].name := Concat(outputs[n].value)]
  }

  /**
   When a restore is killed: after how many steps, where a finished file and a removal are one step each, and how
   many bytes of the next file had reached the disk if it had been created.
   */
  datatype Kill = Never | After(steps: nat, begun: Option<nat>)

  datatype Ending = Done(manifest: Manifest) | Failed | Killed

  /** How many components match before the first that does not. */
  ghost function Matching(digest: Digest, items: seq<Component>, outputs: seq<Result<Chunks>>): (n: nat)
    requires |items| == |outputs|
    ensures n <= |items| && (forall i :: 0 <= i < n ==> Matches(digest, items[i], outputs[i]))
    ensures n < |items| ==> !Matches(digest, items[n], outputs[n])
  {
    if items == [] || !Matches(digest, items[0], outputs[0]) then 0 else 1 + Matching(digest, items[1..], outputs[1..])
  }

  /** How many steps a restore takes: its files, or those up to the first mismatch and their removal. */
  function Steps(count: nat, matching: nat): nat { if matching >= count then count else 2 * (matching + 1) }

  /** What is left after `k` files, of which the next may have been begun: whole components, and one short file. */
  ghost predicate CutShort(items: seq<Component>, outputs: seq<Result<Chunks>>, k: nat, begun: bool,
                           files: map<string, Bytes>)
    requires k <= |items| == |outputs| && forall i :: 0 <= i < k ==> outputs[i].Accepted?
  {
    var whole := Restored(items[..k], outputs[..k]);
    if !begun || k == |items| then files == whole
    else
      && items[k].name in files && files == whole[items[k].name := files[items[k].name]]
      && |files[items[k].name]| <= items[k].size
      && (outputs[k].Accepted? ==> files[items[k].name] <= Concat(outputs[k].value))
  }

  /** What a killed restore leaves: whole components and one short file, or what is not yet removed. */
  ghost predicate Interrupted(digest: Digest, items: seq<Component>, outputs: seq<Result<Chunks>>, kill: Kill,
                              files: map<string, Bytes>)
    requires |items| == |outputs|
  {
    var n := Matching(digest, items, outputs);
    && kill.After? && kill.steps <= Steps(|items|, n)
    && if kill.steps <= n then CutShort(items, outputs, kill.steps, kill.begun.Some?, files)
       else files.Keys == Elements(Names(items)[kill.steps - n - 1..n + 1])
  }

  class Directory {
    var files: map<string, Bytes>

    constructor (initial: map<string, Bytes>)
      ensures files == initial
    {
      files := initial;
    }

    /** Removes what a failed restore created, or as much of it as there is time for. */
    method Discard(created: seq<string>, time: Option<nat>) returns (killed: bool)
      modifies this
      ensures killed <==> time.Some? && time.value <= |created|
      ensures files == old(files) - Elements(created[..if killed then time.value else |created|])
    {
      for i := 0 to |created|
        invariant files == old(files) - Elements(created[..i])
        invariant time.Some? ==> time.value >= i
      {
        if time == Some(i) {
          return true;
        }
        files := files - {created[i]};
        assert created[..i + 1] == created[..i] + [created[i]];
        ElementsAppend(created[..i], created[i]);
      }
      killed := time == Some(|created|);
    }

    /**
     `restore` into this directory. Whatever the store returns: either one file per component, each of the
     manifest's size and digest, or a refusal that leaves the directory as it was. A kill leaves part of that, and
     a directory that is not empty refuses every restore.
     */
    method Restore(digest: Digest, decode: Bytes -> Option<Manifest>, snapshot: string, output: Result<Chunks>,
                   outputs: seq<Result<Chunks>>, kill: Kill)
      returns (r: Ending)
      requires Loaded(decode, snapshot, output).Accepted? ==>
                 |outputs| == |Loaded(decode, snapshot, output).value.components|
      modifies this
      ensures r.Failed? ==> files == old(files)
      ensures Loaded(decode, snapshot, output).Refused? || old(files) != map[] ==> r.Failed?
      ensures Loaded(decode, snapshot, output).Accepted? && old(files) == map[] ==>
                var items := Loaded(decode, snapshot, output).value.components;
                && (r.Done? <==> AllMatch(digest, items, outputs) && !r.Killed?)
                && (r.Killed? <==> kill.After? && kill.steps <= Steps(|items|, Matching(digest, items, outputs)))
                && (r.Killed? ==> Interrupted(digest, items, outputs, kill, files))
      ensures r.Done? ==>
                Loaded(decode, snapshot, output) == Accepted(r.manifest)
                  && files == Restored(r.manifest.components, outputs)
    {
      var loaded := LoadManifest(decode, snapshot, output);
      if loaded.Refused? || files != map[] {
        return Failed;
      }
      var ok, killed := Fetch(digest, loaded.value.components, outputs, kill);
      r := if killed then Killed else if ok then Done(loaded.value) else Failed;
    }

    /** Creates file after file; the first that does not match removes all of them. */
    method Fetch(digest: Digest, items: seq<Component>, outputs: seq<Result<Chunks>>, kill: Kill)
      returns (ok: bool, killed: bool)
      requires files == map[] && |items| == |outputs| && Distinct(Names(items))
      requires forall i :: 0 <= i < |items| ==> ComponentOk(items[i])
      modifies this
      ensures killed <==> kill.After? && kill.steps <= Steps(|items|, Matching(digest, items, outputs))
      ensures killed ==> Interrupted(digest, items, outputs, kill, files)
      ensures !killed ==> (ok <==> AllMatch(digest, items, outputs))
      ensures !killed ==> files == if ok then Restored(items, outputs) else map[]
    {
      var created: seq<string> := [];
      ghost var n := Matching(digest, items, outputs);
      FetchedNone(digest, items, outputs);
      for i := 0 to |items|
        invariant Fetched(digest, items, outputs, i, files, created) && i <= n
        invariant kill.After? ==> kill.steps >= i
      {
        Unused(items, i);
        ghost var before, known := files, created;
        if kill.After? && kill.steps == i {
          Begin(digest, items, outputs, i, kill.begun);
          return false, true;
        }
        var matched := FetchOne(digest, items[i], outputs[i]);
        created := created + [items[i].name];
        CreatedNext(items, i, known);
        if !matched {
          killed := Abandon(digest, items, outputs, i, created, kill);
          return false, killed;
        }
        FetchedNext(digest, items, outputs, i, before, known);
      }
      assert items[..|items|] == items && outputs[..|items|] == outputs;
      ok, killed := true, kill.After? && kill.steps == |items|;
    }

    /** The exception handler: component `m` is the first that did not match. */
    method Abandon(ghost digest: Digest, ghost items: seq<Component>, ghost outputs: seq<Result<Chunks>>, m: nat,
                   created: seq<string>, kill: Kill) returns (killed: bool)
      requires m < |items| == |outputs| && Distinct(Names(items)) && m == Matching(digest, items, outputs)
      requires created == Names(items)[..m + 1] && files.Keys == Elements(created)
      requires kill.After? ==> kill.steps > m
      modifies this
      ensures killed <==> kill.After? && kill.steps <= Steps(|items|, m)
      ensures killed ==> Interrupted(digest, items, outputs, kill, files)
      ensures !killed ==> files == map[]
    {
      killed := Discard(created, if kill.After? then Some(kill.steps - m - 1) else None);
      ghost var j := if killed then kill.steps - m - 1 else m + 1;
      RemovedFirst(created, j);
      assert files.Keys == Elements(created[j..]);
      assert created[j..] == Names(items)[j..m + 1];
    }

    /** The file a kill interrupts, if it was created. */
    method Begin(digest: Digest, items: seq<Component>, outputs: seq<Result<Chunks>>, k: nat, begun: Option<nat>)
      requires k < |items| == |outputs| && ComponentOk(items[k])
      requires forall i :: 0 <= i < k ==> outputs[i].Accepted?
      requires files == Restored(items[..k], outputs[..k])
      modifies this
      ensures CutShort(items, outputs, k, begun.Some?, files)
    {
      if begun.Some? {
        var actual, data := Dump(digest, items[k].snapshot, items[k].name, outputs[k], items[k].size);
        files := files[items[k].name := if begun.value < |data| then data[..begun.value] else data];
      }
    }

    /** One file, created exclusively and written as far as the store's answer goes. */
    method FetchOne(digest: Digest, item: Component, output: Result<Chunks>) returns (ok: bool)
      requires ComponentOk(item) && item.name !in files
      modifies this
      ensures ok <==> Matches(digest, item, output)
      ensures files.Keys == old(files).Keys + {item.name}
      ensures ok ==> files == old(files)[item.name := Concat(output.value)]
    {
      var actual, data := Dump(digest, item.snapshot, item.name, output, item.size);
      files := files[item.name := data];
      ok := actual == Accepted(Report(item.size, item.sha256));
    }
  }

  /** Removing the first `j` of distinct names leaves the others. */
  lemma RemovedFirst(names: seq<string>, j: nat)
    requires j <= |names| && Distinct(names)
    ensures Elements(names) - Elements(names[..j]) == Elements(names[j..])
  {
    assert forall x :: x in names <==> x in names[..j] || x in names[j..] by {
      assert names == names[..j] + names[j..];
    }
    forall x | x in names[..j]
      ensures x !in names[j..]
    {
      var a :| 0 <= a < j && names[a] == x;
      assert forall b :: j <= b < |names| ==> names[b] != names[a];
    }
  }

  lemma CreatedNext(items: seq<Component>, i: nat, created: seq<string>)
    requires i < |items| && created == Names(items)[..i]
    ensures created + [items[i].name] == Names(items)[..i + 1]
    ensures Elements(created + [items[i].name]) == Elements(created) + {items[i].name}
  {
    PrefixNext(Names(items), i);
    ElementsAppend(created, items[i].name);
  }

  lemma PrefixNext(names: seq<string>, i: nat)
    requires i < |names|
    ensures names[..i + 1] == names[..i] + [names[i]]
  {
  }

  /** The state of a restore after `i` files. */
  ghost predicate Fetched(digest: Digest, items: seq<Component>, outputs: seq<Result<Chunks>>, i: nat,
                          files: map<string, Bytes>, created: seq<string>) {
    && i <= |items| == |outputs| && created == Names(items)[..i] && files.Keys == Elements(created)
    && AllMatch(digest, items[..i], outputs[..i]) && files == Restored(items[..i], outputs[..i])
  }

  lemma FetchedNone(digest: Digest, items: seq<Component>, outputs: seq<Result<Chunks>>)
    requires |items| == |outputs|
    ensures Fetched(digest, items, outputs, 0, map[], [])
  {
  }

  lemma FetchedNext(digest: Digest, items: seq<Component>, outputs: seq<Result<Chunks>>, i: nat,
                    files: map<string, Bytes>, created: seq<string>)
    requires Fetched(digest, items, outputs, i, files, created) && i < |items| && Matches(digest, items[i], outputs[i])
    ensures Fetched(digest, items, outputs, i + 1, files[items[i].name := Concat(outputs[i].value)],
                    created + [items[i].name])
  {
    CreatedNext(items, i, created);
    MatchNext(digest, items, outputs, i);
    RestoredNext(items, outputs, i);
  }

  ghost predicate AllMatch(digest: Digest, items: seq<Component>, outputs: seq<Result<Chunks>>) {
    |items| == |outputs| && forall i :: 0 <= i < |items| ==> Matches(digest, items[i], outputs[i])
  }

  lemma Unused(items: seq<Component>, i: nat)
    requires i < |items| && Distinct(Names(items))
    ensures items[i].name !in Elements(Names(items)[..i])
  {
  }

  lemma MatchNext(digest: Digest, items: seq<Component>, outputs: seq<Result<Chunks>>, i: nat)
    requires i < |items| == |outputs| && AllMatch(digest, items[..i], outputs[..i])
             && Matches(digest, items[i], outputs[i])
    ensures AllMatch(digest, items[..i + 1], outputs[..i + 1]) && forall j :: 0 <= j <= i ==> outputs[j].Accepted?
  {
    forall j | 0 <= j <= i
      ensures Matches(digest, items[j], outputs[j])
    {
      if j < i { assert Matches(digest, items[..i][j], outputs[..i][j]); }
    }
  }

  lemma RestoredNext(items: seq<Component>, outputs: seq<Result<Chunks>>, i: nat)
    requires i < |items| == |outputs| && forall j :: 0 <= j <= i ==> outputs[j].Accepted?
    ensures Restored(items[..i + 1], outputs[..i + 1])
            == Restored(items[..i], outputs[..i])[items[i].name := Concat(outputs[i].value)]
  {
    assert items[..i + 1][..i] == items[..i] && outputs[..i + 1][..i] == outputs[..i];
  }

  // ---------- round trip ----------

  lemma {:induction false} RestoredHolds(items: seq<Component>, outputs: seq<Result<Chunks>>, i: nat)
    requires |items| == |outputs| && Distinct(Names(items)) && i < |items|
    requires forall j :: 0 <= j < |outputs| ==> outputs[j].Accepted?
    ensures items[i].name in Restored(items, outputs)
            && Restored(items, outputs)[items[i].name] == Concat(outputs[i].value)
  {
    var n := |items| - 1;
    assert Names(items)[i] == items[i].name && Names(items)[n] == items[n].name;
    if i < n {
      forall a, b | 0 <= a < b < n ensures items[a].name != items[b].name { assert Names(items)[a] != Names(items)[b]; }
      RestoredHolds(items[..n], outputs[..n], i);
    }
  }

  /** The files of a complete restore are the manifest's components: the same names, sizes and digests. */
  lemma RestoredIsTheManifest(digest: Digest, items: seq<Component>, outputs: seq<Result<Chunks>>)
    requires Distinct(Names(items)) && AllMatch(digest, items, outputs)
    ensures var files := Restored(items, outputs);
            && files.Keys == Elements(Names(items))
            && forall i :: 0 <= i < |items| ==>
                 && items[i].name in files && |files[items[i].name]| == items[i].size
                 && digest(files[items[i].name]) == items[i].sha256
  {
    forall i | 0 <= i < |items| ensures outputs[i].Accepted? { assert Matches(digest, items[i], outputs[i]); }
    RestoredKeys(items, outputs);
    forall i | 0 <= i < |items|
      ensures items[i].name in Restored(items, outputs)
              && Restored(items, outputs)[items[i].name] == Concat(outputs[i].value)
    {
      RestoredHolds(items, outputs, i);
    }
  }

  lemma {:induction false} RestoredKeys(items: seq<Component>, outputs: seq<Result<Chunks>>)
    requires |items| == |outputs| && forall j :: 0 <= j < |outputs| ==> outputs[j].Accepted?
    ensures Restored(items, outputs).Keys == Elements(Names(items))
  {
    if items != [] {
      var n := |items| - 1;
      RestoredKeys(items[..n], outputs[..n]);
      assert Names(items) == Names(items[..n]) + [items[n].name];
      ElementsAppend(Names(items[..n]), items[n].name);
    } else {
      assert Names(items) == [];
    }
  }

  lemma ElementsAppend(names: seq<string>, name: string)
    ensures Elements(names + [name]) == Elements(names) + {name}
  {
  }

  /**
   A killed restore leaves the directory empty, so that a later one may begin, if and only if it was killed before its
   first file or after its last removal. Any other kill leaves files that make every later restore fail.
   */
  lemma EmptyAgainExactly(digest: Digest, items: seq<Component>, outputs: seq<Result<Chunks>>, kill: Kill,
                          files: map<string, Bytes>)
    requires |items| == |outputs| && items != [] && Interrupted(digest, items, outputs, kill, files)
    ensures var n := Matching(digest, items, outputs);
            files == map[] <==>
              (kill.steps == 0 && kill.begun.None?) || (n < |items| && kill.steps == Steps(|items|, n))
  {
    var n := Matching(digest, items, outputs);
    if kill.steps <= n {
      var k := kill.steps;
      forall i | 0 <= i < k ensures outputs[i].Accepted? { assert Matches(digest, items[i], outputs[i]); }
      CutShortIsEmpty(items, outputs, k, kill.begun.Some?, files);
    } else {
      NamesLeft(Names(items), kill.steps - n - 1, n + 1, files);
    }
  }

  lemma NamesLeft(names: seq<string>, from: nat, to: nat, files: map<string, Bytes>)
    requires from <= to <= |names| && files.Keys == Elements(names[from..to])
    ensures files == map[] <==> from == to
  {
    if from < to { assert names[from..to][0] in Elements(names[from..to]); }
  }

  lemma CutShortIsEmpty(items: seq<Component>, outputs: seq<Result<Chunks>>, k: nat, begun: bool,
                        files: map<string, Bytes>)
    requires k <= |items| == |outputs| && items != [] && forall i :: 0 <= i < k ==> outputs[i].Accepted?
    requires CutShort(items, outputs, k, begun, files)
    ensures files == map[] <==> k == 0 && !begun
  {
    if k > 0 {
      RestoredKeys(items[..k], outputs[..k]);
      var whole := Restored(items[..k], outputs[..k]);
      var first := Names(items[..k])[0];
      assert first in Elements(Names(items[..k]));
      assert first in whole && first in files;
    }
  }

  /** What a faithful store answers later: the committed manifest, and for each snapshot what was streamed into it. */
  ghost predicate Faithful(attempts: seq<Attempt>, payload: Bytes, output: Result<Chunks>,
                           outputs: seq<Result<Chunks>>) {
    && output.Accepted? && Concat(output.value) == payload && |outputs| == |attempts|
    && forall i :: 0 <= i < |attempts| ==>
      outputs[i].Accepted? && Concat(outputs[i].value) == Concat(attempts[i].run.chunks)
  }

  /**
   With a faithful store, a committed set is accepted by `restore` into an empty directory, and the files are
   exactly the sources' bytes under the sources' names.
   */
  lemma RestoreUndoesBackup(digest: Digest, c: Config, attempts: seq<Attempt>, runId: string, now: int,
                            done: Committed, output: Result<Chunks>, outputs: seq<Result<Chunks>>)
    requires PrintsHex(digest) && ConfigOk(c) && |attempts| == |c.sources| && IsHex(runId, 32, 32)
             && 0 <= now < TIME_LIMIT
    requires BackedUp(digest, c, attempts, runId, now, done)
    requires Faithful(attempts, Payload(done.manifest), output, outputs)
    ensures Loaded(Decode, done.snapshot, output) == Accepted(done.manifest)
    ensures AllMatch(digest, done.manifest.components, outputs)
    ensures var files := Restored(done.manifest.components, outputs);
            && files.Keys == Elements(c.sources)
            && forall i :: 0 <= i < |c.sources| ==>
              c.sources[i] in files && files[c.sources[i]] == Concat(attempts[i].run.chunks)
  {
    CommittedIsLoadable(digest, c, attempts, runId, now, done);
    DecodeUndoesPayload(done.manifest);
    var items := done.manifest.components;
    forall i | 0 <= i < |items|
      ensures Matches(digest, items[i], outputs[i])
    {
      assert Describes(digest, items[i], c.sources[i], attempts[i]);
    }
    assert Names(items) == c.sources;
    RestoredKeys(items, outputs);
    forall i | 0 <= i < |c.sources|
      ensures c.sources[i] in Restored(items, outputs)
              && Restored(items, outputs)[c.sources[i]] == Concat(attempts[i].run.chunks)
    {
      RestoredHolds(items, outputs, i);
    }
  }
}
