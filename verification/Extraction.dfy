/** Extracting a bundle (transfer/bundle.py): the new tree is built beside the destination, checked, and swapped in,
    with the old tree kept until the swap is done.  Any filesystem call may fail. */
module Extraction {
  import opened Common
  import opened Paths
  import opened Bundles

  /** What a path may hold: a directory, by the files below it, or a plain file. */
  datatype Place = Folder(files: Tree) | PlainFile(data: Bytes)

  /** What sits at the destination, the temporary path and the backup path. */
  datatype Slots = Slots(dest: Option<Place>, tmp: Option<Tree>, backup: Option<Place>)

  /** The old state of the destination, or the complete checked new tree, is at the destination or the backup path. */
  predicate Safe(s: Slots, was: Option<Place>, good: Option<Place>) {
    || s.dest == was
    || (s.dest.None? && s.backup == was)
    || (good.Some? && s.dest == good)
  }

  /** No path lies below another, so that each can be a file. */
  predicate Flat(paths: set<string>) {
    forall a, b :: a in paths && b in paths ==> !Below(a, b)
  }

  /** The tree a bundle stands for: it reads, every payload has the recorded size and digest, and the paths can be
      those of files. */
  function Content(lib: Library, members: Option<seq<TarMember>>): Option<(Manifest, Tree)> {
    if members.None? || Read(lib, members.value).Failure? then None
    else
      var (manifest, payloads) := Read(lib, members.value).value;
      if Checked(lib, manifest.files, payloads) && Flat(payloads.Keys) then Some((manifest, payloads)) else None
  }

  /** The path lies below one of these files, or one of them below it. */
  predicate Clashes(paths: set<string>, rel: string) {
    exists p :: p in paths && (Below(p, rel) || Below(rel, p))
  }

  lemma FlatGrows(paths: set<string>, rel: string)
    requires Flat(paths) && !Clashes(paths, rel)
    ensures Flat(paths + {rel})
  {
  }

  function NewTree(lib: Library, members: Option<seq<TarMember>>): Option<Place> {
    if Content(lib, members).Some? then Some(Folder(Content(lib, members).value.1)) else None
  }

  /** The three paths, one filesystem call at a time.  `passed` holds the states an extraction has passed
      through, and `faults` counts the calls that failed. */
  class Site {
    var dest: Option<Place>
    var tmp: Option<Tree>
    var backup: Option<Place>
    var faults: nat
    ghost var passed: set<Slots>

    function Now(): Slots
      reads this
    {
      Slots(dest, tmp, backup)
    }

    /** So far, every state was safe. */
    ghost predicate AlwaysSafe(was: Option<Place>, good: Option<Place>)
      reads this
    {
      Safe(Now(), was, good) && forall s :: s in passed ==> Safe(s, was, good)
    }

    ghost method Mark()
      modifies this`passed
      ensures passed == old(passed) + {Now()}
    {
      passed := passed + {Now()};
    }

    /** Whether the next call fails. */
    method Attempt() returns (ok: bool)
      modifies this`faults
      ensures faults == old(faults) + if ok then 0 else 1
    {
      ok := *;
      if !ok { faults := faults + 1; }
    }

    method MakeTmp() returns (ok: bool)
      requires tmp.None?
      modifies this`tmp, this`faults, this`passed
      ensures faults == old(faults) + if ok then 0 else 1
      ensures tmp == if ok then Some(map[]) else None
      ensures passed == old(passed) + {Now()}
    {
      ok := Attempt();
      if ok { tmp := Some(map[]); }
      Mark();
    }

    /** Where a file would have to be a directory as well the call raises, and that is no fault.  A failed write may
        leave the beginning of the payload behind. */
    method WriteTmp(rel: string, payload: Bytes) returns (ok: bool)
      requires tmp.Some?
      modifies this`tmp, this`faults, this`passed
      ensures faults == old(faults) + if ok || Clashes(old(tmp).value.Keys, rel) then 0 else 1
      ensures ok ==> !Clashes(old(tmp).value.Keys, rel)
      ensures tmp.Some? && (ok ==> tmp == Some(old(tmp).value[rel := payload]))
      ensures passed == old(passed) + {Now()}
    {
      if Clashes(tmp.value.Keys, rel) {
        ok := false;
        Mark();
        return;
      }
      ok := Attempt();
      var some: nat :| some <= |payload|;
      if ok {
        tmp := Some(tmp.value[rel := payload]);
      } else if some > 0 {
        tmp := Some(tmp.value[rel := payload[..some]]);
      }
      Mark();
    }

    method MoveDestToBackup() returns (ok: bool)
      requires dest.Some?
      modifies this
      ensures faults == old(faults) + if ok then 0 else 1
      ensures tmp == old(tmp)
      ensures if ok then dest.None? && backup == old(dest) else dest == old(dest) && backup == old(backup)
      ensures passed == old(passed) + {Now()}
    {
      ok := Attempt();
      if ok { dest, backup := None, dest; }
      Mark();
    }

    method MoveTmpToDest() returns (ok: bool)
      requires tmp.Some? && dest.None?
      modifies this
      ensures faults == old(faults) + if ok then 0 else 1
      ensures backup == old(backup)
      ensures if ok then tmp.None? && dest == Some(Folder(old(tmp).value)) else tmp == old(tmp) && dest == old(dest)
      ensures passed == old(passed) + {Now()}
    {
      ok := Attempt();
      if ok { dest, tmp := Some(Folder(tmp.value)), None; }
      Mark();
    }

    method MoveBackupToDest() returns (ok: bool)
      requires backup.Some? && dest.None?
      modifies this
      ensures faults == old(faults) + if ok then 0 else 1
      ensures tmp == old(tmp)
      ensures if ok then backup.None? && dest == old(backup) else backup == old(backup) && dest == old(dest)
      ensures passed == old(passed) + {Now()}
    {
      ok := Attempt();
      if ok { dest, backup := backup, None; }
      Mark();
    }

    /** `rmtree`: file by file, and it may stop anywhere. */
    method RemoveTmp() returns (ok: bool)
      requires tmp.Some?
      modifies this`tmp, this`faults, this`passed
      ensures ok ==> faults == old(faults) && tmp.None?
      ensures !ok ==> faults > old(faults)
      ensures forall s :: s in passed ==> s in old(passed) || (s.dest == dest && s.backup == backup)
    {
      while true
        invariant tmp.Some? && faults == old(faults)
        invariant forall s :: s in passed ==> s in old(passed) || (s.dest == dest && s.backup == backup)
        decreases |tmp.value|
      {
        ok := Attempt();
        if !ok { return; }
        if tmp.value == map[] {
          tmp := None;
          Mark();
          return;
        }
        var rel :| rel in tmp.value;
        tmp := Some(tmp.value - {rel});
        Mark();
      }
    }

    /** The same for the backup; on a plain file `rmtree` raises at once, and that is no fault. */
    method RemoveBackup() returns (ok: bool)
      requires backup.Some?
      modifies this`backup, this`faults, this`passed
      ensures faults >= old(faults)
      ensures ok ==> faults == old(faults) && backup.None? && old(backup).value.Folder?
      ensures !ok ==> faults > old(faults) || (old(backup).value.PlainFile? && backup == old(backup))
      ensures forall s :: s in passed ==> s in old(passed) || s.dest == dest
    {
      if backup.value.PlainFile? { return false; }
      while true
        invariant backup.Some? && backup.value.Folder? && faults == old(faults)
        invariant forall s :: s in passed ==> s in old(passed) || s.dest == dest
        decreases |backup.value.files|
      {
        ok := Attempt();
        if !ok { return; }
        var files := backup.value.files;
        if files == map[] {
          backup := None;
          Mark();
          return;
        }
        var rel :| rel in files;
        backup := Some(Folder(files - {rel}));
        Mark();
      }
    }

    /** Reading the bundle, then writing each checked payload below the temporary path. */
    method BuildTmp(lib: Library, members: Option<seq<TarMember>>) returns (r: Result<Manifest, BundleError>)
      requires tmp.None? && backup.None?
      modifies this`tmp, this`faults, this`passed
      ensures faults >= old(faults)
      ensures r.Success? ==> faults == old(faults) && Content(lib, members).Some?
      ensures r.Success? ==> r.value == Content(lib, members).value.0 && tmp == Some(Content(lib, members).value.1)
      ensures r.Failure? ==> faults > old(faults) || Content(lib, members).None?
      ensures forall s :: s in passed ==> s in old(passed) || s.dest == dest
    {
      hide Read, Validate, PathsOf, Parts, ProperPath, Below, Flat, Clashes;
      if members.None? { return Failure(Unreadable); }
      var content := ReadBundle(lib, members.value);
      if content.Failure? { return Failure(content.error); }
      var (manifest, payloads) := content.value;
      ReadAgrees(lib, members.value);
      NoPaths();
      assert Flat({}) by { NothingIsFlat(); }
      var made := MakeTmp();
      if !made { return Failure(Broken); }
      var k := 0;
      while k < |manifest.files|
        invariant 0 <= k <= |manifest.files|
        invariant faults == old(faults)
        invariant tmp.Some? && tmp.value.Keys == PathsOf(manifest.files[..k])
        invariant forall rel :: rel in tmp.value ==> rel in payloads && tmp.value[rel] == payloads[rel]
        invariant Checked(lib, manifest.files[..k], payloads) && Flat(tmp.value.Keys)
        invariant forall s :: s in passed ==> s in old(passed) || s.dest == dest
      {
        var entry := manifest.files[k];
        ManifestPathsAreValid(lib, members.value, k);
        var rel := Validate(entry.path);
        if rel.None? { return Failure(Unsafe); }
        if rel.value !in payloads { return Failure(Mismatch); }
        var payload := payloads[rel.value];
        if |payload| != entry.size { return Failure(Mismatch); }
        if lib.digest(payload) != entry.sha256 { return Failure(Mismatch); }
        ghost var written := tmp.value.Keys;
        var wrote := WriteTmp(rel.value, payload);
        if !wrote {
          ClashMeansNotFlat(written, payloads.Keys, rel.value);
          return Failure(Broken);
        }
        FlatGrows(written, rel.value);
        OneMorePath(manifest.files[..k], entry);
        assert manifest.files[..k + 1] == manifest.files[..k] + [entry];
        k := k + 1;
      }
      assert manifest.files[..k] == manifest.files;
      assert tmp.value == payloads;
      r := Success(manifest);
    }

    /** The `except` branch: it keeps safe what is safe. */
    method CleanUp(ghost was: Option<Place>, ghost good: Option<Place>)
      requires AlwaysSafe(was, good)
      requires if dest.Some? then dest == was || dest == good else backup.Some? ==> backup == was
      modifies this
      ensures AlwaysSafe(was, good)
      ensures faults >= old(faults)
      ensures faults == old(faults) && old(dest).None? ==> Now() == Slots(old(backup), None, None)
      ensures faults == old(faults) && old(dest).Some? ==> dest == old(dest) && tmp.None?
      ensures faults == old(faults) && old(dest).Some? ==>
        backup == if old(backup).Some? && old(backup).value.PlainFile? then old(backup) else None
    {
      if tmp.Some? {
        var removed := RemoveTmp();
        if !removed { return; }
      }
      if backup.Some? && dest.None? {
        var restored := MoveBackupToDest();
      } else if backup.Some? {
        var removed := RemoveBackup();
      }
    }

    /** `extract_artifact_bundle`, with fresh temporary and backup names.  After every call, and on return, the old
        tree or the complete checked new one is in place or set aside.  With no fault it succeeds exactly when the
        bundle checks out and the destination was no plain file; a bundle that does not check out changes nothing, and
        a plain file is replaced, although the call raises and leaves it at the backup path. */
    method Extract(lib: Library, members: Option<seq<TarMember>>) returns (r: Result<Manifest, BundleError>)
      requires tmp.None? && backup.None?
      modifies this
      ensures AlwaysSafe(old(dest), NewTree(lib, members))
      ensures faults >= old(faults)
      ensures r.Success? ==> Content(lib, members).Some? && r.value == Content(lib, members).value.0
      ensures r.Success? ==> Now() == Slots(NewTree(lib, members), None, None)
      ensures faults == old(faults) ==>
        (r.Success? <==> Content(lib, members).Some? && !(old(dest).Some? && old(dest).value.PlainFile?))
      ensures r.Failure? && faults == old(faults) && Content(lib, members).None? ==>
        Now() == Slots(old(dest), None, None)
      ensures r.Failure? && faults == old(faults) && Content(lib, members).Some? ==>
        Now() == Slots(NewTree(lib, members), None, old(dest))
    {
      hide Content;
      ghost var was, good := dest, NewTree(lib, members);
      passed := {};
      r := BuildTmp(lib, members);
      if r.Failure? {
        CleanUp(was, good);
        return;
      }
      if dest.Some? {
        var moved := MoveDestToBackup();
        if !moved {
          CleanUp(was, good);
          return Failure(Broken);
        }
      }
      var swapped := MoveTmpToDest();
      if !swapped {
        CleanUp(was, good);
        return Failure(Broken);
      }
      if backup.Some? {
        var removed := RemoveBackup();
        if !removed {
          CleanUp(was, good);
          return Failure(Broken);
        }
      }
    }
  }

  lemma NothingIsFlat()
    ensures Flat({})
  {
  }

  lemma ClashMeansNotFlat(written: set<string>, paths: set<string>, rel: string)
    requires written <= paths && rel in paths
    ensures Clashes(written, rel) ==> !Flat(paths)
  {
  }

  /** The files of a directory have paths that can be those of files. */
  lemma WalkableIsFlat(tree: SourceTree, payloads: Tree)
    requires Walkable(tree) && SameFiles(tree, SortedPaths(tree.Keys), payloads)
    ensures Flat(payloads.Keys)
  {
    hide Join, SortedPaths, ProperPath, Below;
    var paths := SortedPaths(tree.Keys);
    forall a, b | a in payloads && b in payloads ensures !Below(a, b) {
      var i :| 0 <= i < |paths| && Join(paths[i]) == a;
      var j :| 0 <= j < |paths| && Join(paths[j]) == b;
      assert paths[i] in tree && paths[j] in tree;
      BelowIff(paths[i], paths[j]);
    }
  }

  lemma NoPaths()
    ensures PathsOf([]) == {}
  {
  }

  lemma ReadAgrees(lib: Library, members: seq<TarMember>)
    requires Read(lib, members).Success?
    ensures Read(lib, members).value.1.Keys == PathsOf(Read(lib, members).value.0.files)
  {
  }

  /** The paths of a manifest that was read are the ones the path check returns. */
  lemma ManifestPathsAreValid(lib: Library, members: seq<TarMember>, k: nat)
    requires Read(lib, members).Success? && k < |Read(lib, members).value.0.files|
    ensures var path := Read(lib, members).value.0.files[k].path;
      Validate(path) == Some(path) && ProperPath(Parts(path))
  {
    var data := Gather(members).value.manifest.value;
    NormalizedPathsAreValid(lib.parse(data).files.value, k);
  }

  lemma {:induction false} NormalizedPathsAreValid(entries: seq<JsonEntry>, k: nat)
    requires Normalize(entries).Success? && k < |Normalize(entries).value|
    ensures var path := Normalize(entries).value[k].path; Validate(path) == Some(path) && ProperPath(Parts(path))
    decreases |entries|
  {
    var before := Normalize(entries[..|entries| - 1]).value;
    if k < |before| {
      NormalizedPathsAreValid(entries[..|entries| - 1], k);
    } else {
      var path := entries[|entries| - 1].path;
      ValidateTwice(path);
      ValidatedStaysBelow(Validate(path).value);
    }
  }

  /** Creating a bundle and extracting it elsewhere gives back the same files and the same manifest. */
  method RoundTrip(lib: Library, tree: SourceTree, site: Site) returns (r: Result<Manifest, BundleError>)
    requires Lawful(lib) && Walkable(tree) && forall p :: p in tree ==> Plain(tree[p])
    requires site.tmp.None? && site.backup.None?
    modifies site
    ensures site.faults == old(site.faults) ==>
      (r.Success? <==> !(old(site.dest).Some? && old(site.dest).value.PlainFile?))
    ensures r.Success? ==> r.value == Bundled(lib, tree).0
    ensures r.Success? ==> site.dest.Some? && site.dest.value.Folder?
    ensures r.Success? ==> SameFiles(tree, SortedPaths(tree.Keys), site.dest.value.files)
  {
    var made := Create(lib, Some(tree));
    ReadsBack(lib, tree);
    WalkableIsFlat(tree, Read(lib, made.value.1).value.1);
    r := site.Extract(lib, Some(made.value.1));
  }
}
