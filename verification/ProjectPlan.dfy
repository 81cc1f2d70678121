/** Applying a plan of file changes with an undo log. */
module ProjectPlans {
  import opened Options

  /** One planned change. `file` is the resolved target. */
  datatype Change = Change(file: string, after: string)

  /**
   How one step of the plan fares. Refused: something threw before the write took effect (reading the old contents,
   making the directory, opening the file). Torn: the write itself threw and left the file with `left`.
   */
  datatype Fate = Written | Refused | Torn(left: string)

  /** An entry of the undo log: the contents before the write, None when the file did not exist. */
  datatype Undo = Undo(target: string, before: Option<string>)

  type Files = map<string, string>

  function Read(files: Files, target: string): Option<string> {
    if target in files then Some(files[target]) else None
  }

  /** One step of the rollback: write the old contents back, or remove a file that was created. */
  function Restore(files: Files, u: Undo): Files {
    if u.before.Some? then files[u.target := u.before.value] else files - {u.target}
  }

  /** The whole rollback: the log is replayed backwards. */
  function Rollback(files: Files, log: seq<Undo>): Files
    decreases |log|
  {
    if log == [] then files else Rollback(Restore(files, log[|log| - 1]), log[..|log| - 1])
  }

  predicate Touches(plan: seq<Change>, file: string) { exists i :: 0 <= i < |plan| && plan[i].file == file }

  /** What the last change that names the file says. */
  function Planned(plan: seq<Change>, file: string): (text: Option<string>) {
    if plan == [] then None
    else if plan[|plan| - 1].file == file then Some(plan[|plan| - 1].after)
    else Planned(plan[..|plan| - 1], file)
  }

  lemma {:induction false} PlannedIsLast(plan: seq<Change>, file: string) returns (i: nat)
    ensures Planned(plan, file).Some? <==> Touches(plan, file)
    ensures Touches(plan, file) ==> i < |plan| && plan[i].file == file && Planned(plan, file) == Some(plan[i].after)
    ensures forall j | i < j < |plan| :: plan[j].file != file
    decreases |plan|
  {
    i := |plan|;
    if plan != [] {
      var last := |plan| - 1;
      if plan[last].file == file { return last; }
      i := PlannedIsLast(plan[..last], file);
      assert forall j | 0 <= j < last :: plan[..last][j] == plan[j];
    }
  }

  /**
   What the plan promises: every file it names holds the text of the last change that names it, all others are as
   before.
   */
  ghost predicate IsApplied(before: Files, plan: seq<Change>, after: Files) {
    forall f :: Read(after, f) == if Planned(plan, f).Some? then Planned(plan, f) else Read(before, f)
  }

  lemma WriteIsUndone(files: Files, target: string, text: string, log: seq<Undo>)
    ensures Rollback(files[target := text], log + [Undo(target, Read(files, target))]) == Rollback(files, log)
  {
    var u := Undo(target, Read(files, target));
    assert (log + [u])[..|log|] == log;
    assert Restore(files[target := text], u) == files;
  }

  /** A torn write is repaired by the rollback exactly when the log holds an earlier write to the same file. */
  lemma {:induction false} TornWriteInRollback(files: Files, target: string, left: string, log: seq<Undo>)
    ensures Rollback(files[target := left], log) ==
            if exists i :: 0 <= i < |log| && log[i].target == target then Rollback(files, log)
            else Rollback(files, log)[target := left]
    decreases |log|
  {
    if log != [] {
      var u, rest := log[|log| - 1], log[..|log| - 1];
      assert forall i | 0 <= i < |rest| :: rest[i] == log[i];
      if u.target == target {
        assert Restore(files[target := left], u) == Restore(files, u);
      } else {
        assert Restore(files[target := left], u) == Restore(files, u)[target := left];
        TornWriteInRollback(Restore(files, u), target, left, rest);
      }
    }
  }

  lemma AppliedStep(before: Files, plan: seq<Change>, k: nat, now: Files)
    requires k < |plan| && IsApplied(before, plan[..k], now)
    ensures IsApplied(before, plan[..k + 1], now[plan[k].file := plan[k].after])
  {
    var q := plan[..k + 1];
    var next := now[plan[k].file := plan[k].after];
    assert q[..k] == plan[..k] && q[k] == plan[k];
    forall f ensures Read(next, f) == if Planned(q, f).Some? then Planned(q, f) else Read(before, f) {
      assert Planned(q, f) == if f == plan[k].file then Some(plan[k].after) else Planned(plan[..k], f);
    }
  }

  /** After k writes: the files are what the first k changes say, and the log leads back to where they were. */
  ghost predicate Underway(before: Files, plan: seq<Change>, k: nat, now: Files, log: seq<Undo>) {
    && k == |log| <= |plan|
    && (forall i | 0 <= i < k :: log[i].target == plan[i].file)
    && IsApplied(before, plan[..k], now)
    && Rollback(now, log) == before
  }

  lemma WriteStaysUnderway(before: Files, plan: seq<Change>, k: nat, now: Files, log: seq<Undo>)
    requires k < |plan| && Underway(before, plan, k, now, log)
    ensures var target := plan[k].file;
            Underway(before, plan, k + 1, now[target := plan[k].after], log + [Undo(target, Read(now, target))])
  {
    AppliedStep(before, plan, k, now);
    WriteIsUndone(now, plan[k].file, plan[k].after, log);
  }

  /** What the rollback reaches when step k throws. */
  function AfterFailure(before: Files, plan: seq<Change>, k: nat, fate: Fate): Files
    requires k < |plan|
  {
    if fate.Torn? && !Touches(plan[..k], plan[k].file) then before[plan[k].file := fate.left] else before
  }

  /** A failed plan leaves no trace exactly when the failing write did not tear a file that the log does not cover. */
  lemma AllOrNothingIff(before: Files, plan: seq<Change>, k: nat, fate: Fate)
    requires k < |plan|
    ensures AfterFailure(before, plan, k, fate) == before
            <==> fate.Torn? ==> Touches(plan[..k], plan[k].file) || Read(before, plan[k].file) == Some(fate.left)
  {
    if fate.Torn? {
      var torn := before[plan[k].file := fate.left];
      assert Read(torn, plan[k].file) == Some(fate.left);
      if Read(before, plan[k].file) == Some(fate.left) { assert torn == before; }
    }
  }

  lemma TearIsRolledBack(before: Files, plan: seq<Change>, k: nat, now: Files, log: seq<Undo>, left: string)
    requires k < |plan| && Underway(before, plan, k, now, log)
    ensures Rollback(now[plan[k].file := left], log) == AfterFailure(before, plan, k, Torn(left))
  {
    var target := plan[k].file;
    TornWriteInRollback(now, target, left, log);
    assert forall i | 0 <= i < k :: plan[..k][i].file == log[i].target;
  }

  class Disk {
    var files: Files

    /**
     applyPlan. The fate of step i is given by `fate(i)`; the rollback itself is taken not to fail. Either every write
     took effect and the files are what the plan says, or the files are what they were, unless the failing step tore a
     file that no earlier step had written: that file alone keeps what the failed write left.
     */
    method ApplyPlan(plan: seq<Change>, fate: nat -> Fate) returns (ok: bool, failed: nat)
      modifies this
      ensures ok <==> forall i | 0 <= i < |plan| :: fate(i).Written?
      ensures ok ==> IsApplied(old(files), plan, files)
      ensures !ok ==> failed < |plan| && !fate(failed).Written? && forall i | 0 <= i < failed :: fate(i).Written?
      ensures !ok ==> files == AfterFailure(old(files), plan, failed, fate(failed))
    {
      var written: seq<Undo> := [];
      ok := true;
      failed := 0;
      while failed < |plan| && ok
        invariant 0 <= failed <= |plan|
        invariant forall i | 0 <= i < failed :: fate(i).Written?
        invariant ok ==> Underway(old(files), plan, failed, files, written)
        invariant !ok ==> failed < |plan| && !fate(failed).Written?
        invariant !ok ==> Rollback(files, written) == AfterFailure(old(files), plan, failed, fate(failed))
        decreases |plan| - failed, ok
      {
        var target := plan[failed].file;
        var before := Read(files, target);
        var f := fate(failed);
        if f.Written? {
          WriteStaysUnderway(old(files), plan, failed, files, written);
          files := files[target := plan[failed].after];
          written := written + [Undo(target, before)];
          failed := failed + 1;
        } else {
          ok := false;
          if f.Torn? {
            TearIsRolledBack(old(files), plan, failed, files, written, f.left);
            files := files[target := f.left];
          }
        }
      }
      if ok {
        assert plan[..failed] == plan;
        return;
      }
      UndoAll(written);
    }

    /** The rollback: `written.reverse()`, one entry at a time. */
    method UndoAll(written: seq<Undo>)
      modifies this
      ensures files == Rollback(old(files), written)
    {
      var j := |written|;
      assert written[..j] == written;
      while j > 0
        invariant 0 <= j <= |written|
        invariant Rollback(files, written[..j]) == Rollback(old(files), written)
      {
        j := j - 1;
        assert written[..j + 1][..j] == written[..j];
        var item := written[j];
        if item.before.Some? {
          files := files[item.target := item.before.value];
        } else {
          files := files - {item.target};
        }
      }
    }
  }
}
