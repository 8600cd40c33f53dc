/**
 Replacing the running executable (internal/updater/updater.go:795-846), step by
 step on a file system where every step may fail.  The disk keeps the states it has
 been in, so that a crash between any two steps can be spoken of.
 */
module Replace {

  import opened Octets

  datatype Path = Target | Old | Temp | Other(name: string)

  type Files = map<Path, Bytes>

  function At(files: Files, p: Path): seq<Bytes> { if p in files then [files[p]] else [] }

  class Disk {
    var files: Files
    /** Which steps fail. */
    const faulty: nat -> bool
    var steps: nat
    ghost var past: seq<Files>

    ghost predicate Valid()
      reads this
    {
      past != [] && past[|past| - 1] == files
    }

    constructor (files: Files, faulty: nat -> bool)
      ensures Valid() && this.files == files && this.faulty == faulty && past == [files] && steps == 0
    {
      this.files, this.faulty, steps, past := files, faulty, 0, [files];
    }

    /** One step: it leaves the files as given, or, when faulty, as they would be left by a failure. */
    method Put(after: Files, broken: Files) returns (ok: bool)
      requires Valid()
      modifies this
      ensures Valid() && steps == old(steps) + 1 && ok == !faulty(old(steps))
      ensures files == (if ok then after else broken) && past == old(past) + [files]
    {
      ok := !faulty(steps);
      files := if ok then after else broken;
      steps := steps + 1;
      past := past + [files];
    }

    method Write(p: Path, content: Bytes, partial: nat) returns (ok: bool)
      requires Valid() && p in files && files[p] == []
      modifies this
      ensures Valid() && steps == old(steps) + 1 && ok == !faulty(old(steps)) && past == old(past) + [files]
      ensures p in files && files == old(files)[p := files[p]] && (ok ==> files[p] == content)
    {
      var torn := if partial <= |content| then content[..partial] else content;
      ok := Put(files[p := content], files[p := torn]);
    }

    /** Chmod, Sync, Close: nothing that the model sees changes. */
    method Touch() returns (ok: bool)
      requires Valid()
      modifies this
      ensures Valid() && steps == old(steps) + 1 && ok == !faulty(old(steps))
      ensures files == old(files) && past == old(past) + [files]
    {
      ok := Put(files, files);
    }

    method Rename(from: Path, to: Path) returns (ok: bool)
      requires Valid() && from != to
      modifies this
      ensures Valid() && steps == old(steps) + 1 && ok == (from in old(files) && !faulty(old(steps)))
      ensures past == old(past) + [files]
      ensures files == if ok then old(files)[to := old(files)[from]] - {from} else old(files)
    {
      if from in files {
        ok := Put(files[to := files[from]] - {from}, files);
      } else {
        ok := Put(files, files);
        ok := false;
      }
    }

    method Remove(p: Path)
      requires Valid()
      modifies this
      ensures Valid() && steps == old(steps) + 1 && past == old(past) + [files]
      ensures files == if faulty(old(steps)) then old(files) else old(files) - {p}
    {
      var _ := Put(files - {p}, files);
    }
  }

  /** Everything but the temporary file is as it was. */
  ghost predicate Spared(before: Files, files: Files) { files - {Temp} == before - {Temp} }

  ghost predicate AllSpared(before: Files, states: seq<Files>) {
    forall i :: 0 <= i < |states| ==> Spared(before, states[i])
  }

  lemma SparedMore(before: Files, states: seq<Files>, more: seq<Files>)
    requires AllSpared(before, states) && AllSpared(before, more)
    ensures AllSpared(before, states + more)
  {
  }

  /** The `count` steps from step n on all succeed. */
  ghost predicate NoFault(faulty: nat -> bool, n: nat, count: nat) { forall k :: n <= k < n + count ==> !faulty(k) }

  /** Chmod, Sync and Close, as far as they go. */
  method Settle(disk: Disk) returns (ok: bool)
    requires disk.Valid()
    modifies disk
    ensures disk.Valid() && disk.files == old(disk.files)
    ensures ok <==> NoFault(disk.faulty, old(disk.steps), 3)
    ensures ok ==> disk.steps == old(disk.steps) + 3
    ensures old(disk.past) <= disk.past
            && forall i :: |old(disk.past)| <= i < |disk.past| ==> disk.past[i] == old(disk.files)
  {
    ok := disk.Touch();
    if ok {
      ok := disk.Touch();
    }
    if ok {
      ok := disk.Touch();
    }
  }

  /** Write the new bytes to the temporary file. */
  method Fill(disk: Disk, content: Bytes, partial: nat) returns (ok: bool)
    requires disk.Valid() && Temp in disk.files && disk.files[Temp] == []
    modifies disk
    ensures disk.Valid() && Spared(old(disk.files), disk.files)
    ensures old(disk.past) <= disk.past && AllSpared(old(disk.files), disk.past[|old(disk.past)|..])
    ensures ok <==> NoFault(disk.faulty, old(disk.steps), 4)
    ensures ok ==> disk.steps == old(disk.steps) + 4 && disk.files == old(disk.files)[Temp := content]
  {
    ghost var before, n := disk.files, |disk.past|;
    ok := disk.Write(Temp, content, partial);
    ghost var written := disk.past;
    assert AllSpared(before, written[n..]);
    if ok {
      ok := Settle(disk);
      assert AllSpared(before, disk.past[|written|..]);
      assert disk.past[n..] == written[n..] + disk.past[|written|..];
      SparedMore(before, written[n..], disk.past[|written|..]);
    }
  }

  /** Create the temporary file and fill it; the target is not touched. */
  method Stage(disk: Disk, content: Bytes, partial: nat) returns (ok: bool)
    requires disk.Valid() && Temp !in disk.files
    modifies disk
    ensures disk.Valid() && Spared(old(disk.files), disk.files)
    ensures old(disk.past) <= disk.past && AllSpared(old(disk.files), disk.past[|old(disk.past)|..])
    ensures ok <==> NoFault(disk.faulty, old(disk.steps), 5)
    ensures ok ==> disk.steps == old(disk.steps) + 5 && disk.files == old(disk.files)[Temp := content]
  {
    ghost var before, n := disk.files, |disk.past|;
    ok := disk.Put(disk.files[Temp := []], disk.files);
    if !ok {
      return;
    }
    assert Spared(before, disk.files);
    ghost var created := disk.past;
    ok := Fill(disk, content, partial);
    assert disk.past[n..] == created[n..] + disk.past[|created|..];
    SparedMore(before, created[n..], disk.past[|created|..]);
    if !ok {
      ghost var filled := disk.past;
      disk.Remove(Temp);
      assert disk.past[n..] == filled[n..] + [disk.files];
      SparedMore(before, filled[n..], [disk.files]);
    }
  }

  /** Whole or untouched. */
  ghost predicate TargetSafe(before: Files, content: Bytes, files: Files) {
    At(files, Target) == At(before, Target) || At(files, Target) == [content]
  }

  ghost predicate AlwaysSafe(before: Files, content: Bytes, states: seq<Files>) {
    forall i :: 0 <= i < |states| ==> TargetSafe(before, content, states[i])
  }

  /**
   Elsewhere than on Windows one rename does it: whatever fails, and wherever it is
   interrupted, the target is untouched or whole, and an error leaves it untouched.
   */
  method ReplaceExecutable(disk: Disk, content: Bytes, partial: nat) returns (ok: bool)
    requires disk.Valid() && Temp !in disk.files
    modifies disk
    ensures disk.Valid() && old(disk.past) <= disk.past
    ensures AlwaysSafe(old(disk.files), content, disk.past[|old(disk.past)|..])
    ensures ok <==> NoFault(disk.faulty, old(disk.steps), 6)
    ensures ok ==> disk.files == old(disk.files)[Target := content]
    ensures !ok ==> Spared(old(disk.files), disk.files)
  {
    ghost var before := disk.files;
    ok := Stage(disk, content, partial);
    if !ok {
      SparedSafe(before, content, disk.past[|old(disk.past)|..]);
      return;
    }
    ghost var middle := disk.past;
    ok := disk.Rename(Temp, Target);
    if ok {
      assert disk.files == before[Target := content];
    } else {
      disk.Remove(Temp);
    }
    SparedSafe(before, content, middle[|old(disk.past)|..]);
  }

  lemma SparedSafe(before: Files, content: Bytes, states: seq<Files>)
    requires AllSpared(before, states)
    ensures AlwaysSafe(before, content, states)
  {
    forall i | 0 <= i < |states| ensures TargetSafe(before, content, states[i]) {
      SparedAt(before, states[i], Target);
    }
  }

  lemma SparedAt(before: Files, files: Files, p: Path)
    requires Spared(before, files) && p != Temp
    ensures At(files, p) == At(before, p)
  {
    assert p in files <==> p in files - {Temp};
    assert p in before <==> p in before - {Temp};
    if p in files {
      assert (files - {Temp})[p] == (before - {Temp})[p];
    }
  }

  /** Windows moves the old executable aside first: if it is missing, its copy is there. */
  ghost predicate Recoverable(before: Files, content: Bytes, files: Files) {
    TargetSafe(before, content, files) || (Target !in files && At(files, Old) == At(before, Target))
  }

  ghost predicate AlwaysRecoverable(before: Files, content: Bytes, states: seq<Files>) {
    forall i :: 0 <= i < |states| ==> Recoverable(before, content, states[i])
  }

  lemma RecoverableMore(before: Files, content: Bytes, states: seq<Files>, more: seq<Files>)
    requires AlwaysRecoverable(before, content, states) && AlwaysRecoverable(before, content, more)
    ensures AlwaysRecoverable(before, content, states + more)
  {
  }

  /** The renames of the Windows branch. */
  method Swap(disk: Disk, content: Bytes, ghost before: Files) returns (ok: bool)
    requires disk.Valid() && Temp in disk.files && disk.files[Temp] == content
    requires At(disk.files, Target) == At(before, Target)
    modifies disk
    ensures disk.Valid() && old(disk.past) <= disk.past
    ensures AlwaysRecoverable(before, content, disk.past[|old(disk.past)|..])
    ensures ok <==> Target in before && NoFault(disk.faulty, old(disk.steps), 2)
    ensures ok ==> At(disk.files, Target) == [content]
    ensures Target in before && !disk.faulty(old(disk.steps)) && disk.faulty(old(disk.steps) + 1)
            && disk.faulty(old(disk.steps) + 2)
            ==> Target !in disk.files && At(disk.files, Old) == At(before, Target)
    ensures !ok && !(Target in before && !disk.faulty(old(disk.steps)) && disk.faulty(old(disk.steps) + 1)
            && disk.faulty(old(disk.steps) + 2))
            ==> At(disk.files, Target) == At(before, Target)
  {
    ok := disk.Rename(Target, Old);
    if !ok {
      disk.Remove(Temp);
      return;
    }
    ok := disk.Rename(Temp, Target);
    if !ok {
      var _ := disk.Rename(Old, Target);
      disk.Remove(Temp);
      return;
    }
    disk.Remove(Old);
  }

  /**
   Staging succeeds and the old executable is moved aside, but neither can the new one be installed
   nor the old one be put back.
   */
  ghost predicate Stranded(before: Files, faulty: nat -> bool, n: nat) {
    Target in before && NoFault(faulty, n, 5) && !faulty(n + 6) && faulty(n + 7) && faulty(n + 8)
  }

  /** An error leaves the target as it was, unless both the installing rename and the one putting it back fail. */
  method ReplaceOnWindows(disk: Disk, content: Bytes, partial: nat) returns (ok: bool)
    requires disk.Valid() && Temp !in disk.files
    modifies disk
    ensures disk.Valid() && old(disk.past) <= disk.past
    ensures AlwaysRecoverable(old(disk.files), content, disk.past[|old(disk.past)|..])
    ensures ok <==>
            && Target in old(disk.files)
            && NoFault(disk.faulty, old(disk.steps), 5)
            && NoFault(disk.faulty, old(disk.steps) + 6, 2)
    ensures ok ==> At(disk.files, Target) == [content]
    ensures !ok ==> (At(disk.files, Target) == At(old(disk.files), Target) <==>
            !Stranded(old(disk.files), disk.faulty, old(disk.steps)))
    ensures Stranded(old(disk.files), disk.faulty, old(disk.steps)) ==>
            Target !in disk.files && At(disk.files, Old) == At(old(disk.files), Target)
  {
    ghost var before, n := disk.files, |disk.past|;
    ok := Stage(disk, content, partial);
    SparedSafe(before, content, disk.past[n..]);
    SparedAt(before, disk.files, Target);
    if !ok {
      return;
    }
    disk.Remove(Old);
    ghost var removed := disk.past;
    assert AlwaysRecoverable(before, content, removed[n..]);
    ok := Swap(disk, content, before);
    assert disk.past[n..] == removed[n..] + disk.past[|removed|..];
    RecoverableMore(before, content, removed[n..], disk.past[|removed|..]);
  }

  /** A disk on which the two renames fail: the error leaves no executable, only its copy. */
  method StrandedDisk(was: Bytes, content: Bytes) returns (disk: Disk, ok: bool)
    ensures !ok && Target !in disk.files && At(disk.files, Old) == [was]
  {
    disk := new Disk(map[Target := was], k => k == 7 || k == 8);
    ok := ReplaceOnWindows(disk, content, 0);
  }
}
