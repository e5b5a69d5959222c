/**
 Publishing the staged authority: a backup directory is made, four renames swap the bundle and its archive, and a
 failure on the way is undone by up to three more. The process may be killed between any two of these steps.
 */
module DcsCommit {
  import opened Wrappers

  /** A bundle directory or an archive file, with the digest of the bundle it holds. */
  datatype Item = Item(id: nat, digest: string)

  /** Everything `commit` moves around; `previous` says whether the backup directory exists. */
  datatype Files = Files(bundle: Option<Item>, archive: Option<Item>,
                         stagedBundle: Option<Item>, stagedArchive: Option<Item>, previous: bool,
                         backupBundle: Option<Item>, backupArchive: Option<Item>, failedBundle: Option<Item>)

  /** Checked before the first rename: a complete authority, a complete and newer stage, no backup directory yet. */
  predicate ReadyToCommit(f: Files) {
    && f.bundle.Some? && f.archive.Some? && f.stagedBundle.Some? && f.stagedArchive.Some?
    && f.bundle != f.stagedBundle && f.archive != f.stagedArchive
    && !f.previous && f.backupBundle.None? && f.backupArchive.None? && f.failedBundle.None?
  }

  predicate StageMatches(f: Files)
    requires f.stagedBundle.Some? && f.stagedArchive.Some?
  {
    f.stagedBundle.value.digest == f.stagedArchive.value.digest
  }

  /** Bundle and archive belong together: both old or both new. */
  predicate Original(f: Files, f': Files) { f'.bundle == f.bundle && f'.archive == f.archive }
  predicate Replaced(f: Files, f': Files) { f'.bundle == f.stagedBundle && f'.archive == f.stagedArchive }

  const RENAMES: nat := 4

  /** The files after the backup directory is made and `k` renames are done. */
  function Renamed(f: Files, k: nat): Files {
    var g := f.(previous := true);
    if k == 0 then g
    else if k == 1 then g.(bundle := None, backupBundle := f.bundle)
    else if k == 2 then g.(bundle := f.stagedBundle, backupBundle := f.bundle, stagedBundle := None)
    else if k == 3 then
      g.(bundle := f.stagedBundle, backupBundle := f.bundle, stagedBundle := None, archive := None,
         backupArchive := f.archive)
    else
      g.(bundle := f.stagedBundle, backupBundle := f.bundle, stagedBundle := None,
         archive := f.stagedArchive, backupArchive := f.archive, stagedArchive := None)
  }

  /** The files after `steps` steps of a commit, the first of which makes the backup directory. */
  function Advanced(f: Files, steps: nat): Files { if steps == 0 then f else Renamed(f, steps - 1) }

  /** What the exception handler does next, and the files after `j` of its steps. */
  function UndoStep(f: Files): Files {
    if f.backupArchive.Some? then f.(archive := f.backupArchive, backupArchive := None)
    else if f.backupBundle.Some? && f.bundle.Some? then f.(failedBundle := f.bundle, bundle := None)
    else if f.backupBundle.Some? then f.(bundle := f.backupBundle, backupBundle := None)
    else f
  }

  function Undone(f: Files, j: nat): Files { if j == 0 then f else UndoStep(Undone(f, j - 1)) }

  /** How many renames undo `done` of them. */
  function UndoSteps(done: nat): nat { if done < 3 then done else 3 }

  function Held(slot: Option<Item>, item: Item): nat { if slot == Some(item) then 1 else 0 }

  /** How many of the places hold the item. */
  function Copies(f: Files, item: Item): nat {
    Held(f.bundle, item) + Held(f.archive, item) + Held(f.stagedBundle, item) + Held(f.stagedArchive, item)
    + Held(f.backupBundle, item) + Held(f.backupArchive, item) + Held(f.failedBundle, item)
  }

  datatype Outcome =
    | Committed
    | RolledBack(done: nat)                   // an exception after `done` renames, undone
    | Stuck(done: nat, undo: nat)             // an exception after `done` renames, and undo step `undo` failed too
    | Killed(steps: nat)                      // the process disappeared after `steps` steps
    | KilledUndoing(done: nat, undone: nat)   // an exception after `done` renames, killed after `undone` undo steps
    | RefusedToStart

  /**
   What a commit meets: which of its renames the file system refuses, whether the final digests can be taken, which
   of the three undo renames are refused, and after how many steps of either kind the process is killed, if it is.
   */
  datatype Answers = Answers(failing: set<nat>, readable: bool, undoFailing: set<nat>, lifetime: nat, undoLifetime: nat)

  /** How many renames are made. */
  function Made(a: Answers): nat {
    if 0 in a.failing then 0
    else if 1 in a.failing then 1
    else if 2 in a.failing then 2
    else if 3 in a.failing then 3
    else RENAMES
  }

  /** What becomes of undoing `done` renames when `j` steps are done: the shorter the undo, the later it begins. */
  function UndoOutcome(done: nat, j: nat, a: Answers): Outcome
    requires j <= UndoSteps(done)
    decreases UndoSteps(done) - j
  {
    var step := 3 - UndoSteps(done) + j;
    if j == UndoSteps(done) then RolledBack(done)
    else if a.undoLifetime == j then KilledUndoing(done, j)
    else if step in a.undoFailing then Stuck(done, step)
    else UndoOutcome(done, j + 1, a)
  }

  function OutcomeOf(f: Files, a: Answers): Outcome {
    if !ReadyToCommit(f) || !StageMatches(f) then RefusedToStart
    else if a.lifetime <= Made(a) + 1 then Killed(a.lifetime)
    else if Made(a) == RENAMES && a.readable then Committed
    else UndoOutcome(Made(a), 0, a)
  }

  /** The files an outcome leaves. */
  function Left(f: Files, r: Outcome): Files {
    match r
    case Committed => Renamed(f, RENAMES)
    case RolledBack(done) => Undone(Renamed(f, done), UndoSteps(done))
    case Stuck(done, undo) =>
      var started := 3 - UndoSteps(done);
      Undone(Renamed(f, done), if undo < started then 0 else undo - started)
    case Killed(steps) => Advanced(f, steps)
    case KilledUndoing(done, undone) => Undone(Renamed(f, done), undone)
    case RefusedToStart => f
  }

  class Authority {
    var files: Files

    constructor (f: Files)
      ensures files == f
    {
      files := f;
    }

    /** `commit`, from the checks of the stage on. */
    method Commit(a: Answers) returns (r: Outcome)
      modifies this
      ensures r == OutcomeOf(old(files), a) && files == Left(old(files), r)
      ensures r.Stuck? ==> r.done <= RENAMES && r.undo < 3 && r.undo in a.undoFailing && !Original(old(files), files)
      ensures r.Committed? ==> Replaced(old(files), files)
      ensures r.RolledBack? ==> Original(old(files), files)
      ensures !r.RefusedToStart? && r != Killed(0) ==> files.previous && !ReadyToCommit(files)
    {
      CommitLeaves(files, a);
      if !ReadyToCommit(files) || !StageMatches(files) {
        return RefusedToStart;
      }
      if a.lifetime == 0 { return Killed(0); }
      files := files.(previous := true);
      var movedBundle, movedArchive := false, false;
      var done := 0;
      if a.lifetime == 1 { return Killed(1); }
      if 0 !in a.failing {
        files := files.(bundle := None, backupBundle := files.bundle);
        movedBundle, done := true, 1;
        if a.lifetime == 2 { return Killed(2); }
        if 1 !in a.failing {
          files := files.(bundle := files.stagedBundle, stagedBundle := None);
          done := 2;
          if a.lifetime == 3 { return Killed(3); }
          if 2 !in a.failing {
            files := files.(archive := None, backupArchive := files.archive);
            movedArchive, done := true, 3;
            if a.lifetime == 4 { return Killed(4); }
            if 3 !in a.failing {
              files := files.(archive := files.stagedArchive, stagedArchive := None);
              done := 4;
              if a.lifetime == 5 { return Killed(5); }
              if a.readable && files.bundle.value.digest == files.archive.value.digest {
                return Committed;
              }
            }
          }
        }
      }
      r := Undo(movedBundle, movedArchive, done, a, old(files));
    }

    /** The exception handler. */
    method Undo(movedBundle: bool, movedArchive: bool, done: nat, a: Answers, ghost start: Files) returns (r: Outcome)
      requires ReadyToCommit(start) && done <= RENAMES && files == Renamed(start, done)
      requires movedBundle == (done >= 1) && movedArchive == (done >= 3)
      modifies this
      ensures r == UndoOutcome(done, 0, a) && files == Left(start, r)
      ensures r.Stuck? ==> r.done <= RENAMES && r.undo < 3 && r.undo in a.undoFailing
    {
      UndoneSteps(Renamed(start, done));
      var undone := 0;
      if movedArchive {
        if a.undoLifetime == 0 { return KilledUndoing(done, 0); }
        if 0 in a.undoFailing { return Stuck(done, 0); }
        files := files.(archive := files.backupArchive, backupArchive := None);
        undone := 1;
      }
      if movedBundle {
        if files.bundle.Some? {
          if a.undoLifetime == undone { return KilledUndoing(done, undone); }
          if 1 in a.undoFailing { return Stuck(done, 1); }
          files := files.(failedBundle := files.bundle, bundle := None);
          undone := undone + 1;
        }
        if a.undoLifetime == undone { return KilledUndoing(done, undone); }
        if 2 in a.undoFailing { return Stuck(done, 2); }
        files := files.(bundle := files.backupBundle, backupBundle := None);
      }
      r := RolledBack(done);
    }
  }

  lemma UndoneSteps(f: Files)
    ensures Undone(f, 0) == f && Undone(f, 1) == UndoStep(f) && Undone(f, 2) == UndoStep(UndoStep(f))
    ensures Undone(f, 3) == UndoStep(UndoStep(UndoStep(f)))
  {
    assert Undone(f, 1) == UndoStep(Undone(f, 0));
    assert Undone(f, 2) == UndoStep(Undone(f, 1));
    assert Undone(f, 3) == UndoStep(Undone(f, 2));
  }

  /**
   A kill between the renames is not undone: the pair is whole exactly before the first and after the last. In
   between, bundle and archive are mixed or one of them is missing. Nothing is lost.
   */
  lemma KilledIsWholeOnlyAtTheEnds(f: Files, k: nat)
    requires ReadyToCommit(f) && k <= RENAMES
    ensures Original(f, Renamed(f, k)) || Replaced(f, Renamed(f, k)) <==> k == 0 || k == RENAMES
    ensures forall x :: Copies(Renamed(f, k), x) == Copies(f, x)
  {
  }

  /**
   A kill during the undo: the pair is whole exactly when the undo is complete, or has not begun after all four
   renames. Only a complete set of four renames costs an item, the staged archive, from the first undo step on.
   */
  lemma KilledUndoingIsWholeOnlyAtTheEnds(f: Files, done: nat, j: nat)
    requires ReadyToCommit(f) && done <= RENAMES && j <= UndoSteps(done)
    ensures var g := Undone(Renamed(f, done), j);
            && (Original(f, g) <==> j == UndoSteps(done))
            && (Replaced(f, g) <==> done == RENAMES && j == 0)
            && forall x ::
              Copies(g, x) + (if done == RENAMES && j > 0 then Held(f.stagedArchive, x) else 0) == Copies(f, x)
  {
    UndoneSteps(Renamed(f, done));
  }

  /** Every outcome, by what the commit meets. */
  lemma {:induction false} UndoOutcomes(done: nat, j: nat, a: Answers)
    requires done <= RENAMES && j <= UndoSteps(done)
    ensures var r := UndoOutcome(done, j, a);
            && (r.RolledBack? || r.Stuck? || r.KilledUndoing?) && r.done == done
            && (r.KilledUndoing? ==> j <= r.undone == a.undoLifetime < UndoSteps(done))
            && (r.Stuck? ==> 3 - UndoSteps(done) + j <= r.undo < 3 && r.undo in a.undoFailing)
    decreases UndoSteps(done) - j
  {
    if j < UndoSteps(done) { UndoOutcomes(done, j + 1, a); }
  }

  /**
   What a commit leaves: on normal return the new pair, after a rollback the old one, after a failed undo never the
   old one; a commit that got under way leaves the backup directory, and so can never be repeated.
   */
  lemma CommitLeaves(f: Files, a: Answers)
    ensures var r := OutcomeOf(f, a);
            var g := Left(f, r);
            && (r.RefusedToStart? <==> !ReadyToCommit(f) || !StageMatches(f))
            && (r.RefusedToStart? || r == Killed(0) ==> g == f)
            && (!r.RefusedToStart? && r != Killed(0) ==> g.previous && !ReadyToCommit(g))
            && (r.Committed? ==> Replaced(f, g))
            && (r.RolledBack? ==> Original(f, g))
            && (r.Stuck? ==> !Original(f, g) && a.undoFailing != {})
            && (a.failing == {} && a.readable && a.lifetime > RENAMES + 1 && !r.RefusedToStart? ==> r.Committed?)
  {
    UndoOutcomes(Made(a), 0, a);
    var r := OutcomeOf(f, a);
    if !r.RefusedToStart? && (r.RolledBack? || r.Stuck? || r.KilledUndoing?) {
      var j := if r.RolledBack? then UndoSteps(r.done)
               else if r.KilledUndoing? then r.undone else r.undo - (3 - UndoSteps(r.done));
      OneAttempt(f, r.done, j);
      KilledUndoingIsWholeOnlyAtTheEnds(f, r.done, j);
    }
  }

  /** After a commit got under way, whatever came of it, the same stage is never committed again. */
  lemma OneAttempt(f: Files, done: nat, j: nat)
    requires ReadyToCommit(f) && done <= RENAMES && j <= UndoSteps(done)
    ensures Undone(Renamed(f, done), j).previous && !ReadyToCommit(Undone(Renamed(f, done), j))
  {
    UndoneSteps(Renamed(f, done));
  }

  /** The mixed pair, concretely: killed after two renames, the new bundle stands beside the old archive. */
  lemma KilledHalfway()
    ensures var f := Files(Some(Item(1, "old")), Some(Item(2, "old")), Some(Item(3, "new")), Some(Item(4, "new")),
                           false, None, None, None);
            ReadyToCommit(f) && Renamed(f, 2).bundle.value.digest != Renamed(f, 2).archive.value.digest
  {
    assert "old"[0] != "new"[0];
  }
}
