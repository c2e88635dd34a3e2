/** PublishCover's work under the gate: rename the finished file into place, then remove
    the other cover files of the work.  The gate itself is the keyed lock. */
module CoverFiles {
  const EXTENSIONS := [".jpg", ".jpeg", ".png", ".webp"]

  /** What a reader may find for one work: the extensions its stem exists with. */
  type Files = set<string>

  predicate HasCover(files: Files) {
    exists ext :: ext in EXTENSIONS && ext in files
  }

  datatype Outcome = Published | Kept | Failed

  /** The files after the first n removals of a replace went through. */
  function Removed(files: Files, target: string, n: nat): Files
    requires n <= |EXTENSIONS|
  {
    files - (set i | 0 <= i < n && EXTENSIONS[i] != target :: EXTENSIONS[i])
  }

  predicate Fails(target: string, replace: bool, failing: nat) {
    failing == 0 || (replace && failing <= |EXTENSIONS| && EXTENSIONS[failing - 1] != target)
  }

  /** Where a publication stands: calls 0 to 3 look for a cover, 4 renames, 5 to 8 remove the
      other extensions; at 9 it has published, at 10 it has kept the cover it found. */
  datatype Job = Job(target: string, replace: bool, at: nat)

  function Start(target: string, replace: bool): Job {
    Job(target, replace, if replace then 4 else 0)
  }

  /** The next call of a publication, on the files it finds. */
  function Called(j: Job, files: Files): (Job, Files) {
    if j.at < 4 then
      if EXTENSIONS[j.at] in files then (j.(at := 10), files) else (j.(at := j.at + 1), files)
    else if j.at == 4 then (j.(at := if j.replace then 5 else 9), files + {j.target})
    else if j.at < 9 then
      (j.(at := j.at + 1), if EXTENSIONS[j.at - 5] == j.target then files else files - {EXTENSIONS[j.at - 5]})
    else (j, files)
  }

  predicate Changes(j: Job) {
    j.at == 4 || (5 <= j.at < 9 && EXTENSIONS[j.at - 5] != j.target)
  }

  /** The publication and its files after some calls of it, with no other in between. */
  function After(j: Job, files: Files, calls: nat): (Job, Files) {
    if calls == 0 then (j, files)
    else
      var before := After(j, files, calls - 1);
      Called(before.0, before.1)
  }

  /** The files before the publication and after each of its calls that change them. */
  function SeenIn(j: Job, files: Files, calls: nat): seq<Files> {
    if calls == 0 then [files]
    else SeenIn(j, files, calls - 1) + if Changes(After(j, files, calls - 1).0) then [After(j, files, calls).1] else []
  }

  lemma LookMisses(start: Job, files: Files, i: nat)
    requires i < 4 && EXTENSIONS[i] !in files
    requires After(start, files, i) == (start.(at := i), files) && SeenIn(start, files, i) == [files]
    ensures After(start, files, i + 1) == (start.(at := i + 1), files) && SeenIn(start, files, i + 1) == [files]
  {
  }

  lemma LookFinds(start: Job, files: Files, i: nat)
    requires i < 4 && EXTENSIONS[i] in files
    requires After(start, files, i) == (start.(at := i), files) && SeenIn(start, files, i) == [files]
    ensures After(start, files, i + 1) == (start.(at := 10), files) && SeenIn(start, files, i + 1) == [files]
  {
  }

  lemma Renames(start: Job, files: Files, n: nat)
    requires After(start, files, n) == (start.(at := 4), files) && SeenIn(start, files, n) == [files]
    ensures var renamed := files + {start.target};
            && After(start, files, n + 1) == (start.(at := if start.replace then 5 else 9), renamed)
            && SeenIn(start, files, n + 1) == [files, renamed]
  {
  }

  lemma Removes(start: Job, files: Files, n: nat, i: nat)
    requires i < 4 && After(start, files, n).0 == start.(at := 5 + i)
    ensures var left := After(start, files, n).1;
            if EXTENSIONS[i] == start.target then
              After(start, files, n + 1) == (start.(at := 6 + i), left)
                && SeenIn(start, files, n + 1) == SeenIn(start, files, n)
            else
              && After(start, files, n + 1) == (start.(at := 6 + i), left - {EXTENSIONS[i]})
              && SeenIn(start, files, n + 1) == SeenIn(start, files, n) + [left - {EXTENSIONS[i]}]
  {
  }

  lemma NoCalls(start: Job, files: Files)
    ensures After(start, files, 0) == (start, files) && SeenIn(start, files, 0) == [files]
  {
  }

  lemma RemovedNone(files: Files, target: string)
    ensures Removed(files, target, 0) == files
  {
  }

  lemma RemovedNext(files: Files, target: string, i: nat)
    requires i < |EXTENSIONS|
    ensures Removed(files, target, i + 1) == Removed(files, target, i) - if EXTENSIONS[i] == target then {}
      else {EXTENSIONS[i]}
  {
  }

  class CoverDirectory {
    var files: Files
    /** Every state a reader could have seen since the publication began, oldest first. */
    ghost var seen: seq<Files>

    constructor (files: Files)
      ensures this.files == files && seen == [files]
    {
      this.files, seen := files, [files];
    }

    method Rename(target: string)
      modifies this
      ensures files == old(files) + {target} && seen == old(seen) + [files]
    {
      files := files + {target};
      seen := seen + [files];
    }

    method Remove(ext: string)
      modifies this
      ensures files == old(files) - {ext} && seen == old(seen) + [files]
    {
      files := files - {ext};
      seen := seen + [files];
    }

    /** failing is the file-system call that fails, if any: 0 for the rename, i + 1 for the
        removal of the i-th extension.  Removing a file that is not there is no failure. */
    method Publish(target: string, replace: bool, failing: nat) returns (outcome: Outcome, ghost calls: nat)
      requires seen == [files]
      modifies this
      ensures var start := Start(target, replace);
              && seen == SeenIn(start, old(files), calls)
              && var (job, left) := After(start, old(files), calls);
                 && left == files && job.target == target && job.replace == replace
                 && job.at == match outcome case Published => 9 case Kept => 10 case Failed => 4 + failing
      ensures seen != [] && seen[0] == old(files) && seen[|seen| - 1] == files
      ensures !replace && HasCover(old(files)) ==> outcome == Kept && seen == [old(files)]
      ensures outcome == Published ==>
        files == if replace then Removed(old(files) + {target}, target, |EXTENSIONS|) else old(files) + {target}
      ensures outcome == Failed <==> (replace || !HasCover(old(files))) && Fails(target, replace, failing)
      ensures outcome == Kept <==> !replace && HasCover(old(files))
      ensures forall k :: 0 < k < |seen| ==> target in seen[k]
    {
      hide After, SeenIn, Removed;
      ghost var was, start := files, Start(target, replace);
      NoCalls(start, was);
      calls := 0;
      if !replace {
        var i := 0;
        while i < |EXTENSIONS|
          invariant 0 <= i == calls <= |EXTENSIONS|
          invariant forall k :: 0 <= k < i ==> EXTENSIONS[k] !in files
          invariant files == was && seen == [was] && After(start, was, i) == (start.(at := i), was)
            && SeenIn(start, was, i) == [was]
        {
          calls := calls + 1;
          if EXTENSIONS[i] in files {
            assert EXTENSIONS[i] in EXTENSIONS;
            LookFinds(start, was, i);
            return Kept, calls;
          }
          LookMisses(start, was, i);
          i := i + 1;
        }
      }
      if failing == 0 {
        return Failed, calls;
      }
      Rename(target);
      Renames(start, was, calls);
      calls := calls + 1;
      if replace {
        ghost var renamed := files;
        RemovedNone(renamed, target);
        var i := 0;
        while i < |EXTENSIONS|
          invariant 0 <= i <= |EXTENSIONS| && failing > 0
          invariant forall k :: 0 <= k < i && EXTENSIONS[k] != target ==> failing != k + 1
          invariant files == Removed(renamed, target, i)
          invariant |seen| >= 2 && seen[0] == was && seen[|seen| - 1] == files
          invariant forall k :: 0 < k < |seen| ==> target in seen[k]
          invariant After(start, was, calls) == (start.(at := 5 + i), files) && seen == SeenIn(start, was, calls)
        {
          var ext := EXTENSIONS[i];
          if ext != target {
            if failing == i + 1 {
              return Failed, calls;
            }
            Remove(ext);
          }
          Removes(start, was, calls, i);
          RemovedNext(renamed, target, i);
          calls := calls + 1;
          i := i + 1;
        }
      }
      return Published, calls;
    }
  }

  /** A replace leaves exactly one listed cover file, its target, if and only if the
      target's extension is listed; otherwise it leaves none. */
  lemma ReplaceLeaves(files: Files, target: string)
    ensures var left := Removed(files + {target}, target, |EXTENSIONS|);
            && (forall ext :: ext in EXTENSIONS && ext in left <==> ext == target && target in EXTENSIONS)
            && (HasCover(left) <==> target in EXTENSIONS)
  {
    var left := Removed(files + {target}, target, |EXTENSIONS|);
    forall ext | ext in EXTENSIONS && ext != target
      ensures ext !in left
    {
      var i :| 0 <= i < |EXTENSIONS| && EXTENSIONS[i] == ext;
    }
  }
}
