/**
 The storage budget for the DEV guests' application disks. All sizes are bytes actually allocated on the one
 filesystem that holds four root images and up to three application disks.
 */
module Capacity {
  import opened Wrappers

  const GIB: int := 0x4000_0000
  const ROOT: int := 40 * GIB
  const APP: int := 64 * GIB

  datatype Inventory = Inventory(available: int, roots: seq<int>, completed: seq<int>)

  datatype Budget = Budget(available: int, required: int, growth: int, admitted: bool)

  /** What the images may still grow, up to `limit` bytes each. */
  function Missing(images: seq<int>, limit: int): (n: int)
    ensures n >= 0
  {
    if images == [] then 0 else (if images[0] < limit then limit - images[0] else 0) + Missing(images[1..], limit)
  }

  /** What the images have taken beyond `limit` bytes each. */
  function Beyond(images: seq<int>, limit: int): (n: int)
    ensures n >= 0
  {
    if images == [] then 0 else (if images[0] < limit then 0 else images[0] - limit) + Beyond(images[1..], limit)
  }

  predicate Measured(i: Inventory) {
    && i.available >= 0 && |i.roots| == 4 && |i.completed| <= 3
    && (forall k :: 0 <= k < 4 ==> i.roots[k] >= 0) && (forall k :: 0 <= k < |i.completed| ==> i.completed[k] >= 0)
  }

  function Growth(i: Inventory): int { Missing(i.roots, ROOT) + Missing(i.completed, APP) }

  function Required(i: Inventory): int { (3 - |i.completed|) * 64 * GIB + 128 * GIB + Growth(i) + 5 * GIB }

  /** `capacity`: refused when the measurements are not those of this host. */
  function Capacity(i: Inventory): Result<Budget> {
    if Measured(i) then Accepted(Budget(i.available, Required(i), Growth(i), i.available >= Required(i))) else Refused
  }

  // ---------- what storage use does to the budget ----------

  /** Bytes allocated by the running guests and by disk creation, taken from the free space. */
  datatype Step = GrowRoot(image: nat, bytes: nat) | CreateApp(bytes: nat) | GrowApp(image: nat, bytes: nat)

  predicate Possible(i: Inventory, step: Step) {
    match step
    case GrowRoot(k, _) => k < |i.roots|
    case CreateApp(_) => |i.completed| < 3
    case GrowApp(k, _) => k < |i.completed|
  }

  function After(i: Inventory, step: Step): Inventory
    requires Possible(i, step)
  {
    match step
    case GrowRoot(k, n) => i.(available := i.available - n, roots := i.roots[k := i.roots[k] + n])
    case CreateApp(n) => i.(available := i.available - n, completed := i.completed + [n])
    case GrowApp(k, n) => i.(available := i.available - n, completed := i.completed[k := i.completed[k] + n])
  }

  predicate Runs(i: Inventory, steps: seq<Step>)
    decreases |steps|
  {
    steps != [] ==> Possible(i, steps[0]) && Runs(After(i, steps[0]), steps[1..])
  }

  function AfterAll(i: Inventory, steps: seq<Step>): Inventory
    requires Runs(i, steps)
    decreases |steps|
  {
    if steps == [] then i else AfterAll(After(i, steps[0]), steps[1..])
  }

  function Slack(i: Inventory): int { i.available - Required(i) }

  /** Bytes beyond 40 GiB of a root image and 64 GiB of an application disk. */
  function Overhead(i: Inventory): int { Beyond(i.roots, ROOT) + Beyond(i.completed, APP) }

  lemma {:induction false} GrowOne(images: seq<int>, limit: int, k: nat, n: nat)
    requires k < |images|
    ensures var grown := images[k := images[k] + n];
            && Beyond(grown, limit) - Missing(grown, limit) == Beyond(images, limit) - Missing(images, limit) + n
            && Beyond(grown, limit) >= Beyond(images, limit)
  {
    var grown := images[k := images[k] + n];
    if k == 0 {
      assert grown[1..] == images[1..];
    } else {
      GrowOne(images[1..], limit, k - 1, n);
      assert grown[1..] == images[1..][k - 1 := images[k] + n];
    }
  }

  lemma {:induction false} AddOne(images: seq<int>, limit: int, n: nat)
    ensures Missing(images + [n], limit) == Missing(images, limit) + (if n < limit then limit - n else 0)
    ensures Beyond(images + [n], limit) == Beyond(images, limit) + (if n < limit then 0 else n - limit)
  {
    if images != [] {
      AddOne(images[1..], limit, n);
      assert (images + [n])[1..] == images[1..] + [n];
    }
  }

  lemma StaysMeasured(i: Inventory, step: Step)
    requires Measured(i.(available := 0)) && Possible(i, step)
    ensures Measured(After(i, step).(available := 0))
  {
  }

  /** One step moves slack into overhead and never changes their sum. */
  lemma StepConserves(i: Inventory, step: Step)
    requires Measured(i.(available := 0)) && Possible(i, step)
    ensures Measured(After(i, step).(available := 0))
    ensures Slack(After(i, step)) + Overhead(After(i, step)) == Slack(i) + Overhead(i)
    ensures Overhead(After(i, step)) >= Overhead(i)
  {
    StaysMeasured(i, step);
    match step
    case GrowRoot(k, n) => GrowOne(i.roots, ROOT, k, n);
    case CreateApp(n) => AddOne(i.completed, APP, n);
    case GrowApp(k, n) => GrowOne(i.completed, APP, k, n);
  }

  /** Over every sequence of root growth, application disk creation and growth, slack plus overhead is constant. */
  lemma {:induction false} SlackIsConserved(i: Inventory, steps: seq<Step>)
    requires Measured(i.(available := 0)) && Runs(i, steps)
    ensures Measured(AfterAll(i, steps).(available := 0))
    ensures Slack(AfterAll(i, steps)) + Overhead(AfterAll(i, steps)) == Slack(i) + Overhead(i)
    ensures Overhead(AfterAll(i, steps)) >= Overhead(i)
    decreases |steps|
  {
    if steps != [] {
      StepConserves(i, steps[0]);
      SlackIsConserved(After(i, steps[0]), steps[1..]);
    }
  }

  /**
   After any run from a measured inventory, the budget still admits exactly if the overhead added does not
   exceed the slack there was, and then at least 133 GiB are still free.
   */
  lemma AdmissionLasts(i: Inventory, steps: seq<Step>)
    requires Measured(i) && Runs(i, steps)
    ensures var j := AfterAll(i, steps);
            && ((Capacity(j).Accepted? && Capacity(j).value.admitted) <==> Overhead(j) - Overhead(i) <= Slack(i))
            && (Overhead(j) - Overhead(i) <= Slack(i) ==> j.available >= 133 * GIB)
  {
    SlackIsConserved(i, steps);
  }

  /** Overhead only accumulates, so what holds at the end of a run held after each of its steps. */
  lemma {:induction false} AdmittedThroughout(i: Inventory, steps: seq<Step>, more: seq<Step>)
    requires Measured(i) && Runs(i, steps) && Runs(AfterAll(i, steps), more)
    requires Overhead(AfterAll(AfterAll(i, steps), more)) - Overhead(i) <= Slack(i)
    ensures Capacity(AfterAll(i, steps)).Accepted? && Capacity(AfterAll(i, steps)).value.admitted
    ensures AfterAll(i, steps).available >= 133 * GIB
  {
    SlackIsConserved(i, steps);
    SlackIsConserved(AfterAll(i, steps), more);
    AdmissionLasts(i, steps);
  }

  /** An application disk of exactly 64 GiB and root growth up to 40 GiB are already paid for: nothing changes. */
  lemma PlannedUseIsFree(i: Inventory, steps: seq<Step>)
    requires Measured(i) && Capacity(i).value.admitted && Runs(i, steps)
    requires forall k :: 0 <= k < |AfterAll(i, steps).roots| ==> AfterAll(i, steps).roots[k] <= ROOT
    requires forall k :: 0 <= k < |AfterAll(i, steps).completed| ==> AfterAll(i, steps).completed[k] <= APP
    ensures Capacity(AfterAll(i, steps)).Accepted? && Capacity(AfterAll(i, steps)).value.admitted
    ensures Slack(AfterAll(i, steps)) == Slack(i)
  {
    var j := AfterAll(i, steps);
    NothingBeyond(j.roots, ROOT);
    NothingBeyond(j.completed, APP);
    SlackIsConserved(i, steps);
    AdmissionLasts(i, steps);
  }

  lemma {:induction false} NothingBeyond(images: seq<int>, limit: int)
    requires forall k :: 0 <= k < |images| ==> images[k] <= limit
    ensures Beyond(images, limit) == 0
  {
    if images != [] {
      NothingBeyond(images[1..], limit);
    }
  }
}
