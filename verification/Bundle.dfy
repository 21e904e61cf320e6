/** Artifact bundles (transfer/bundle.py): writing a directory to an archive with a manifest of digests, reading it
    back, and swapping the result into place. */
module Bundles {
  import opened Common
  import opened Paths

  const SCHEMA := "shiroe.artifact-bundle/v1"
  const MANIFEST := "manifest.json"
  const FILES := "files/"
  const SHA256 := "sha256:"

  datatype FileEntry = FileEntry(path: string, sha256: string, size: int)

  datatype Manifest = Manifest(files: seq<FileEntry>, digest: string)

  /** What JSON text parses to: not JSON, not an object, or an object whose fields may be missing. */
  datatype Json = Garbage | Scalar | Object(schema: Option<string>, files: Option<seq<JsonEntry>>)

  datatype JsonEntry = NotAnObject | JsonEntry(path: string, sha256: string, size: Option<int>)

  /** `_digest_bytes`, `_canonical_json` of a manifest body, and the JSON parser. */
  datatype Library = Library(digest: Bytes -> string, canonical: seq<FileEntry> -> Bytes, parse: Bytes -> Json)

  function AsJson(files: seq<FileEntry>): Json {
    Object(Some(SCHEMA),
      Some(seq(|files|, i requires 0 <= i < |files| => JsonEntry(files[i].path, files[i].sha256, Some(files[i].size)))))
  }

  predicate DigestShaped(s: string) {
    SHA256 <= s && |s| == 71
  }

  /** What the libraries promise. */
  ghost predicate Lawful(lib: Library) {
    (forall b :: DigestShaped(lib.digest(b))) && (forall files :: lib.parse(lib.canonical(files)) == AsJson(files))
  }

  datatype BundleError =
    | NotADirectory | Unsafe | Duplicate | NotRegular | Unexpected
    | MissingManifest | BadManifest | Mismatch | Unreadable | Broken

  // ----- creating

  datatype SourceFile = SourceFile(data: Bytes, symlink: bool, regular: bool, links: nat)

  type SourceTree = map<seq<string>, SourceFile>

  predicate Plain(f: SourceFile) {
    !f.symlink && f.regular && f.links <= 1
  }

  /** The names a directory walk produces; no file lies below another. */
  ghost predicate Walkable(tree: SourceTree) {
    && (forall p :: p in tree ==> ProperPath(p))
    && (forall p, q :: p in tree && q in tree ==> !(p < q))
  }

  function EntryOf(lib: Library, p: seq<string>, f: SourceFile): FileEntry {
    FileEntry(Join(p), lib.digest(f.data), |f.data|)
  }

  datatype TarMember = TarMember(name: string, regular: bool, data: Option<Bytes>)

  function MemberOf(p: seq<string>, f: SourceFile): TarMember {
    TarMember(FILES + Join(p), true, Some(f.data))
  }

  function EntriesOf(lib: Library, tree: SourceTree, paths: seq<seq<string>>): (r: seq<FileEntry>)
    requires forall p :: p in paths ==> p in tree
    ensures |r| == |paths|
  {
    seq(|paths|, i requires 0 <= i < |paths| => assert paths[i] in paths; EntryOf(lib, paths[i], tree[paths[i]]))
  }

  function MembersOf(tree: SourceTree, paths: seq<seq<string>>): (r: seq<TarMember>)
    requires forall p :: p in paths ==> p in tree
    ensures |r| == |paths|
  {
    seq(|paths|, i requires 0 <= i < |paths| => assert paths[i] in paths; MemberOf(paths[i], tree[paths[i]]))
  }

  function ManifestMember(lib: Library, files: seq<FileEntry>): TarMember {
    TarMember(MANIFEST, true, Some(lib.canonical(files)))
  }

  /** `_source_entries`: the files in path order; links of either kind are refused. */
  method SourceEntries(lib: Library, source: Option<SourceTree>)
    returns (r: Result<(seq<FileEntry>, seq<seq<string>>), BundleError>)
    requires source.Some? ==> Walkable(source.value)
    ensures r.Success? <==> source.Some? && forall p :: p in source.value ==> Plain(source.value[p])
    ensures r.Success? ==>
      r.value.1 == SortedPaths(source.value.Keys) && r.value.0 == EntriesOf(lib, source.value, r.value.1)
  {
    hide Join, Validate, SortedPaths, Seen, ProperPath, Listed, EntriesOf;
    ListedNone(lib);
    if source.None? { return Failure(NotADirectory); }
    var tree := source.value;
    var paths := SortedPaths(tree.Keys);
    var entries: seq<FileEntry> := [];
    var seen: set<string> := {};
    NothingSeen(paths);
    var k := 0;
    while k < |paths|
      invariant 0 <= k <= |paths|
      invariant Listed(lib, tree, paths, k, entries)
      invariant Seen(paths, k, seen)
    {
      var p := paths[k];
      assert p in tree;
      var rel := Validate(Join(p));
      ProperPathIsValid(p);
      if rel.None? { return Failure(Unsafe); }
      NotSeen(tree, paths, k, seen);
      if rel.value in seen { return Failure(Duplicate); }
      SeenOneMore(paths, k, seen);
      seen := seen + {rel.value};
      ListedMore(lib, tree, paths, k, entries);
      if tree[p].symlink { return Failure(NotRegular); }
      if !tree[p].regular { return Failure(NotRegular); }
      if tree[p].links > 1 { return Failure(NotRegular); }
      entries := entries + [FileEntry(rel.value, lib.digest(tree[p].data), |tree[p].data|)];
      k := k + 1;
    }
    ListedAll(lib, tree, paths, entries);
    r := Success((entries, paths));
  }

  ghost predicate Listed(lib: Library, tree: SourceTree, paths: seq<seq<string>>, k: nat, entries: seq<FileEntry>) {
    && |entries| == k <= |paths|
    && forall i :: 0 <= i < k ==>
         paths[i] in tree && Plain(tree[paths[i]]) && entries[i] == EntryOf(lib, paths[i], tree[paths[i]])
  }

  lemma ListedNone(lib: Library)
    ensures forall tree, paths :: Listed(lib, tree, paths, 0, [])
  {
  }

  lemma ListedMore(lib: Library, tree: SourceTree, paths: seq<seq<string>>, k: nat, entries: seq<FileEntry>)
    requires k < |paths| && paths[k] in tree && Listed(lib, tree, paths, k, entries)
    ensures Plain(tree[paths[k]]) ==>
      Listed(lib, tree, paths, k + 1, entries + [EntryOf(lib, paths[k], tree[paths[k]])])
  {
    hide Join;
  }

  lemma ListedAll(lib: Library, tree: SourceTree, paths: seq<seq<string>>, entries: seq<FileEntry>)
    requires forall p :: p in paths <==> p in tree
    requires Listed(lib, tree, paths, |paths|, entries)
    ensures entries == EntriesOf(lib, tree, paths) && forall p :: p in tree ==> Plain(tree[p])
  {
    hide Join;
    forall p | p in tree ensures Plain(tree[p]) { assert p in paths; }
  }

  ghost predicate Seen(paths: seq<seq<string>>, k: nat, seen: set<string>) {
    forall x :: x in seen ==> exists i :: 0 <= i < k <= |paths| && Join(paths[i]) == x
  }

  lemma NothingSeen(paths: seq<seq<string>>)
    ensures Seen(paths, 0, {})
  {
  }

  lemma SeenOneMore(paths: seq<seq<string>>, k: nat, seen: set<string>)
    requires k < |paths| && Seen(paths, k, seen)
    ensures Seen(paths, k + 1, seen + {Join(paths[k])})
  {
    hide Join;
  }

  /** Distinct paths have distinct names. */
  lemma NotSeen(tree: SourceTree, paths: seq<seq<string>>, k: nat, seen: set<string>)
    requires k < |paths| && Walkable(tree) && forall p :: p in paths ==> p in tree
    requires forall i, j :: 0 <= i < j < |paths| ==> paths[i] != paths[j]
    requires Seen(paths, k, seen)
    ensures Join(paths[k]) !in seen
  {
    hide Join;
    forall i | 0 <= i < k ensures Join(paths[i]) != Join(paths[k]) {
      assert paths[i] in paths && paths[k] in paths;
      if Join(paths[i]) == Join(paths[k]) { JoinIsInjective(paths[i], paths[k]); }
    }
  }

  /** `create_artifact_bundle`: the manifest first, then one member a file. */
  method Create(lib: Library, source: Option<SourceTree>)
    returns (r: Result<(Manifest, seq<TarMember>), BundleError>)
    requires source.Some? ==> Walkable(source.value)
    ensures r.Success? <==> source.Some? && forall p :: p in source.value ==> Plain(source.value[p])
    ensures r.Success? ==> r.value == Bundled(lib, source.value)
  {
    hide Join, SortedPaths;
    var listed := SourceEntries(lib, source);
    if listed.Failure? { return Failure(listed.error); }
    var (entries, paths) := listed.value;
    var members := [ManifestMember(lib, entries)];
    var k := 0;
    while k < |paths|
      invariant 0 <= k <= |paths|
      invariant members == [ManifestMember(lib, entries)] + MembersOf(source.value, paths)[..k]
    {
      assert paths[k] in paths;
      members := members + [TarMember(FILES + entries[k].path, true, Some(source.value[paths[k]].data))];
      k := k + 1;
    }
    assert MembersOf(source.value, paths)[..k] == MembersOf(source.value, paths);
    r := Success((Manifest(entries, lib.digest(lib.canonical(entries))), members));
  }

  function Bundled(lib: Library, tree: SourceTree): (Manifest, seq<TarMember>) {
    var paths := SortedPaths(tree.Keys);
    var entries := EntriesOf(lib, tree, paths);
    (Manifest(entries, lib.digest(lib.canonical(entries))), [ManifestMember(lib, entries)] + MembersOf(tree, paths))
  }

  // ----- reading

  type Tree = map<string, Bytes>

  datatype Gathered = Gathered(names: set<string>, payloads: Tree, manifest: Option<Bytes>)

  /** One bundle member. */
  function GatherOne(g: Gathered, m: TarMember): Result<Gathered, BundleError> {
    var names := g.names + {m.name};
    if m.name in g.names then Failure(Duplicate)
    else if m.name == MANIFEST then
      if !m.regular then Failure(NotRegular)
      else if m.data.None? then Failure(Unreadable)
      else Success(Gathered(names, g.payloads, m.data))
    else if !(FILES <= m.name) then Failure(Unexpected)
    else if !m.regular then Failure(NotRegular)
    else
      var rel := Validate(m.name[|FILES|..]);
      if rel.None? then Failure(Unsafe)
      else if m.data.None? then Failure(Unreadable)
      else Success(Gathered(names, g.payloads[rel.value := m.data.value], g.manifest))
  }

  function Gather(members: seq<TarMember>): Result<Gathered, BundleError> {
    if members == [] then Success(Gathered({}, map[], None))
    else
      var g := Gather(members[..|members| - 1]);
      if g.Failure? then g else GatherOne(g.value, members[|members| - 1])
  }

  /** One manifest entry, after the paths in `seen`. */
  function CheckEntry(seen: set<string>, e: JsonEntry): Result<FileEntry, BundleError> {
    if e.NotAnObject? then Failure(BadManifest)
    else
      var rel := Validate(e.path);
      if rel.None? then Failure(Unsafe)
      else if rel.value in seen then Failure(Duplicate)
      else if !DigestShaped(e.sha256) then Failure(BadManifest)
      else if e.size.None? || e.size.value < 0 then Failure(BadManifest)
      else Success(FileEntry(rel.value, e.sha256, e.size.value))
  }

  function PathsOf(files: seq<FileEntry>): set<string> {
    set i | 0 <= i < |files| :: files[i].path
  }

  function Normalize(entries: seq<JsonEntry>): Result<seq<FileEntry>, BundleError> {
    if entries == [] then Success([])
    else
      var before := Normalize(entries[..|entries| - 1]);
      if before.Failure? then before
      else
        var e := CheckEntry(PathsOf(before.value), entries[|entries| - 1]);
        if e.Failure? then Failure(e.error) else Success(before.value + [e.value])
  }

  function ParseManifest(lib: Library, data: Bytes): Result<Manifest, BundleError> {
    var json := lib.parse(data);
    if !json.Object? || json.schema != Some(SCHEMA) || json.files.None? then Failure(BadManifest)
    else
      var files := Normalize(json.files.value);
      if files.Failure? then Failure(files.error)
      else Success(Manifest(files.value, lib.digest(lib.canonical(files.value))))
  }

  function Read(lib: Library, members: seq<TarMember>): Result<(Manifest, Tree), BundleError> {
    var g := Gather(members);
    if g.Failure? then Failure(g.error)
    else if g.value.manifest.None? then Failure(MissingManifest)
    else
      var m := ParseManifest(lib, g.value.manifest.value);
      if m.Failure? then Failure(m.error)
      else if g.value.payloads.Keys != PathsOf(m.value.files) then Failure(Mismatch)
      else Success((m.value, g.value.payloads))
  }

  /** `_manifest_from_bytes`. */
  method ManifestFromBytes(lib: Library, data: Bytes) returns (r: Result<Manifest, BundleError>)
    ensures r == ParseManifest(lib, data)
  {
    var parsed := lib.parse(data);
    if !parsed.Object? { return Failure(BadManifest); }
    if parsed.schema != Some(SCHEMA) { return Failure(BadManifest); }
    if parsed.files.None? { return Failure(BadManifest); }
    var files := parsed.files.value;
    var seen: set<string> := {};
    var normalized: seq<FileEntry> := [];
    var k := 0;
    while k < |files|
      invariant 0 <= k <= |files|
      invariant Normalize(files[..k]) == Success(normalized)
      invariant seen == PathsOf(normalized)
    {
      var entry := CheckEntry(seen, files[k]);
      k := k + 1;
      assert files[..k][..k - 1] == files[..k - 1];
      if entry.Failure? {
        NormalizeFails(files, k);
        return Failure(entry.error);
      }
      assert seen + {entry.value.path} == PathsOf(normalized + [entry.value]) by {
        OneMorePath(normalized, entry.value);
      }
      seen := seen + {entry.value.path};
      normalized := normalized + [entry.value];
    }
    assert files[..k] == files;
    r := Success(Manifest(normalized, lib.digest(lib.canonical(normalized))));
  }

  lemma {:induction false} NormalizeFails(entries: seq<JsonEntry>, k: nat)
    requires k <= |entries| && Normalize(entries[..k]).Failure?
    ensures Normalize(entries) == Normalize(entries[..k])
    decreases |entries|
  {
    if k == |entries| {
      assert entries[..k] == entries;
    } else {
      var init := entries[..|entries| - 1];
      assert init[..k] == entries[..k];
      NormalizeFails(init, k);
    }
  }

  lemma OneMorePath(files: seq<FileEntry>, e: FileEntry)
    ensures PathsOf(files + [e]) == PathsOf(files) + {e.path}
  {
    var more := files + [e];
    forall x ensures x in PathsOf(more) <==> x in PathsOf(files) + {e.path} {
      if x in PathsOf(files) {
        var i :| 0 <= i < |files| && files[i].path == x;
        assert more[i].path == x;
      }
      if x == e.path { assert more[|files|].path == x; }
    }
  }

  /** `_read_bundle`. */
  method ReadBundle(lib: Library, members: seq<TarMember>) returns (r: Result<(Manifest, Tree), BundleError>)
    ensures r == Read(lib, members)
  {
    var names: set<string> := {};
    var payloads: Tree := map[];
    var manifestBytes: Option<Bytes> := None;
    var k := 0;
    while k < |members|
      invariant 0 <= k <= |members|
      invariant Gather(members[..k]) == Success(Gathered(names, payloads, manifestBytes))
    {
      var m := members[k];
      k := k + 1;
      assert members[..k][..k - 1] == members[..k - 1];
      if m.name in names { GatherFails(members, k); return Failure(Duplicate); }
      names := names + {m.name};
      if m.name == MANIFEST {
        if !m.regular { GatherFails(members, k); return Failure(NotRegular); }
        if m.data.None? { GatherFails(members, k); return Failure(Unreadable); }
        manifestBytes := m.data;
        continue;
      }
      if !(FILES <= m.name) { GatherFails(members, k); return Failure(Unexpected); }
      if !m.regular { GatherFails(members, k); return Failure(NotRegular); }
      var rel := Validate(m.name[|FILES|..]);
      if rel.None? { GatherFails(members, k); return Failure(Unsafe); }
      if m.data.None? { GatherFails(members, k); return Failure(Unreadable); }
      payloads := payloads[rel.value := m.data.value];
    }
    assert members[..k] == members;
    if manifestBytes.None? { return Failure(MissingManifest); }
    var manifest := ManifestFromBytes(lib, manifestBytes.value);
    if manifest.Failure? { return Failure(manifest.error); }
    if payloads.Keys != PathsOf(manifest.value.files) { return Failure(Mismatch); }
    r := Success((manifest.value, payloads));
  }

  lemma {:induction false} GatherFails(members: seq<TarMember>, k: nat)
    requires k <= |members| && Gather(members[..k]).Failure?
    ensures Gather(members) == Gather(members[..k])
    decreases |members|
  {
    if k == |members| {
      assert members[..k] == members;
    } else {
      var init := members[..|members| - 1];
      assert init[..k] == members[..k];
      GatherFails(init, k);
    }
  }

  // ----- which bundles are accepted

  predicate IsFile(m: TarMember) {
    m.name != MANIFEST && FILES <= m.name && Validate(m.name[|FILES|..]).Some?
  }

  function RelOf(m: TarMember): string
    requires IsFile(m)
  {
    Validate(m.name[|FILES|..]).value
  }

  /** A readable regular file that is the manifest or lies below `files/`. */
  predicate MemberAccepted(m: TarMember) {
    m.regular && m.data.Some? && (m.name == MANIFEST || IsFile(m))
  }

  ghost predicate NamesDistinct(members: seq<TarMember>) {
    forall i, j :: 0 <= i < j < |members| ==> members[i].name != members[j].name
  }

  /** The last member that unpacks to the path. */
  ghost predicate LastFor(members: seq<TarMember>, rel: string, i: nat) {
    && i < |members| && IsFile(members[i]) && RelOf(members[i]) == rel
    && forall j :: i < j < |members| && IsFile(members[j]) ==> RelOf(members[j]) != rel
  }

  /** What the members gathered say of the archive. */
  ghost predicate Explains(members: seq<TarMember>, g: Gathered) {
    && (forall n :: n in g.names <==> exists i :: 0 <= i < |members| && members[i].name == n)
    && (g.manifest.Some? <==> MANIFEST in g.names)
    && (forall i :: 0 <= i < |members| && members[i].name == MANIFEST ==> g.manifest == members[i].data)
    && (forall i :: 0 <= i < |members| && IsFile(members[i]) ==> RelOf(members[i]) in g.payloads)
    && (forall rel :: rel in g.payloads ==>
      exists i: nat :: LastFor(members, rel, i) && members[i].data == Some(g.payloads[rel]))
  }

  /** The members are taken in exactly when their names differ and each is acceptable; and then every path holds the
      data of the last member unpacking to it. */
  lemma {:induction false} GatherSucceedsIff(members: seq<TarMember>)
    ensures Gather(members).Success? <==>
      NamesDistinct(members) && forall i :: 0 <= i < |members| ==> MemberAccepted(members[i])
    ensures Gather(members).Success? ==> Explains(members, Gather(members).value)
    decreases |members|
  {
    hide Validate;
    if members != [] {
      var n := |members| - 1;
      var init, m := members[..n], members[n];
      GatherSucceedsIff(init);
      assert members == init + [m];
      if Gather(init).Success? {
        NameTaken(init, m, Gather(init).value);
        GatherOneIff(Gather(init).value, m);
        if GatherOne(Gather(init).value, m).Success? { ExplainsMore(init, m, Gather(init).value); }
      }
      AcceptedAll(init, m);
    }
  }

  lemma AcceptedAll(init: seq<TarMember>, m: TarMember)
    ensures NamesDistinct(init + [m]) <==> NamesDistinct(init) && forall i :: 0 <= i < |init| ==> init[i].name != m.name
    ensures (forall i :: 0 <= i < |init + [m]| ==> MemberAccepted((init + [m])[i]))
       <==> (forall i :: 0 <= i < |init| ==> MemberAccepted(init[i])) && MemberAccepted(m)
  {
    hide MemberAccepted;
    var all := init + [m];
    assert all[|init|] == m && forall i :: 0 <= i < |init| ==> all[i] == init[i];
  }

  lemma NameTaken(init: seq<TarMember>, m: TarMember, g: Gathered)
    requires Explains(init, g)
    ensures m.name in g.names <==> exists i :: 0 <= i < |init| && init[i].name == m.name
  {
    hide IsFile, LastFor;
  }

  lemma GatherOneIff(g: Gathered, m: TarMember)
    ensures GatherOne(g, m).Success? <==> m.name !in g.names && MemberAccepted(m)
    ensures GatherOne(g, m).Success? ==>
      GatherOne(g, m).value == if m.name == MANIFEST then Gathered(g.names + {m.name}, g.payloads, m.data)
                               else Gathered(g.names + {m.name}, g.payloads[RelOf(m) := m.data.value], g.manifest)
  {
    hide Validate;
  }

  lemma ExplainsMore(init: seq<TarMember>, m: TarMember, g: Gathered)
    requires Explains(init, g) && m.name !in g.names && MemberAccepted(m)
    ensures Explains(init + [m], GatherOne(g, m).value)
  {
    GatherOneIff(g, m);
    hide GatherOne, Validate;
    var all, more := init + [m], GatherOne(g, m).value;
    assert all[|init|] == m && forall i :: 0 <= i < |init| ==> all[i] == init[i];
    forall n ensures n in more.names <==> exists i :: 0 <= i < |all| && all[i].name == n {
      if n == m.name { assert all[|init|].name == n; }
      if i :| 0 <= i < |init| && init[i].name == n { assert all[i].name == n; }
    }
    forall rel | rel in more.payloads
      ensures exists i: nat :: LastFor(all, rel, i) && all[i].data == Some(more.payloads[rel])
    {
      if IsFile(m) && RelOf(m) == rel {
        assert LastFor(all, rel, |init|);
      } else {
        var i: nat :| LastFor(init, rel, i) && init[i].data == Some(g.payloads[rel]);
        assert LastFor(all, rel, i);
      }
    }
  }

  // ----- which manifests are accepted

  /** An object with a safe path, a digest of the right shape and a size that is a natural number. */
  predicate EntryAccepted(e: JsonEntry) {
    e.JsonEntry? && Validate(e.path).Some? && DigestShaped(e.sha256) && e.size.Some? && e.size.value >= 0
  }

  function Normalized(e: JsonEntry): FileEntry
    requires EntryAccepted(e)
  {
    FileEntry(Validate(e.path).value, e.sha256, e.size.value)
  }

  ghost predicate PathsDiffer(entries: seq<JsonEntry>)
    requires forall i :: 0 <= i < |entries| ==> EntryAccepted(entries[i])
  {
    forall i, j :: 0 <= i < j < |entries| ==> Normalized(entries[i]).path != Normalized(entries[j]).path
  }

  ghost predicate EntriesAccepted(entries: seq<JsonEntry>) {
    (forall i :: 0 <= i < |entries| ==> EntryAccepted(entries[i])) && PathsDiffer(entries)
  }

  /** A manifest's entries are accepted exactly when each is and their normalized paths differ pairwise; the result
      lists them in order. */
  lemma {:induction false} NormalizeSucceedsIff(entries: seq<JsonEntry>)
    ensures Normalize(entries).Success? <==> EntriesAccepted(entries)
    ensures Normalize(entries).Success? ==> var files := Normalize(entries).value;
      |files| == |entries| && forall i :: 0 <= i < |entries| ==> files[i] == Normalized(entries[i])
    decreases |entries|
  {
    hide Validate;
    if entries != [] {
      var n := |entries| - 1;
      var init, e := entries[..n], entries[n];
      NormalizeSucceedsIff(init);
      assert entries == init + [e];
      EntriesOneMore(init, e);
      if EntriesAccepted(init) {
        EntryPathTaken(init, e, Normalize(init).value);
        CheckEntryIff(PathsOf(Normalize(init).value), e);
      }
      hide EntriesAccepted, EntryAccepted, CheckEntry;
    }
  }

  lemma CheckEntryIff(seen: set<string>, e: JsonEntry)
    ensures CheckEntry(seen, e).Success? <==> EntryAccepted(e) && Normalized(e).path !in seen
    ensures CheckEntry(seen, e).Success? ==> CheckEntry(seen, e).value == Normalized(e)
  {
    hide Validate;
  }

  lemma EntryPathTaken(init: seq<JsonEntry>, e: JsonEntry, files: seq<FileEntry>)
    requires EntriesAccepted(init) && |files| == |init|
    requires forall i :: 0 <= i < |init| ==> files[i] == Normalized(init[i])
    ensures EntryAccepted(e) ==> (Normalized(e).path in PathsOf(files) <==>
      exists i :: 0 <= i < |init| && Normalized(init[i]).path == Normalized(e).path)
  {
    hide Validate;
  }

  lemma EntriesOneMore(init: seq<JsonEntry>, e: JsonEntry)
    ensures EntriesAccepted(init + [e]) <==>
      (EntriesAccepted(init) && EntryAccepted(e) &&
       forall i :: 0 <= i < |init| ==> Normalized(init[i]).path != Normalized(e).path)
  {
    hide EntryAccepted, Normalized;
    var all := init + [e];
    assert all[|init|] == e && forall i :: 0 <= i < |init| ==> all[i] == init[i];
  }

  /** So a manifest is accepted exactly when it is an object of the right schema with an acceptable list of files; the
      files keep their order, and the digest is that of the normalized list. */
  lemma ManifestAcceptedIff(lib: Library, data: Bytes)
    ensures var json := lib.parse(data);
      ParseManifest(lib, data).Success? <==>
        json.Object? && json.schema == Some(SCHEMA) && json.files.Some? && EntriesAccepted(json.files.value)
    ensures ParseManifest(lib, data).Success? ==>
      var m, entries := ParseManifest(lib, data).value, lib.parse(data).files.value;
      && |m.files| == |entries| && (forall i :: 0 <= i < |entries| ==> m.files[i] == Normalized(entries[i]))
      && m.digest == lib.digest(lib.canonical(m.files))
  {
    if lib.parse(data).Object? && lib.parse(data).files.Some? { NormalizeSucceedsIff(lib.parse(data).files.value); }
    hide Normalize, EntriesAccepted;
  }

  /** The paths the members unpack to. */
  function FilePaths(members: seq<TarMember>): set<string> {
    set i | 0 <= i < |members| && IsFile(members[i]) :: RelOf(members[i])
  }

  /** Member `i` is a manifest that is accepted and lists exactly the paths of the other members. */
  ghost predicate ManifestAt(lib: Library, members: seq<TarMember>, i: nat) {
    && i < |members| && members[i].name == MANIFEST && members[i].data.Some?
    && var m := ParseManifest(lib, members[i].data.value);
      m.Success? && PathsOf(m.value.files) == FilePaths(members)
  }

  /** A bundle is read exactly when its members are acceptable under different names and one of them is such a
      manifest. */
  lemma ReadSucceedsIff(lib: Library, members: seq<TarMember>)
    ensures Read(lib, members).Success? <==>
      && NamesDistinct(members) && (forall i :: 0 <= i < |members| ==> MemberAccepted(members[i]))
      && exists i: nat :: ManifestAt(lib, members, i)
  {
    GatherSucceedsIff(members);
    hide Gather, ParseManifest, Validate, PathsOf, MemberAccepted;
    if Gather(members).Success? {
      var g := Gather(members).value;
      assert g.payloads.Keys == FilePaths(members) by {
        forall rel ensures rel in g.payloads <==> rel in FilePaths(members) {
          if rel in g.payloads { var i: nat :| LastFor(members, rel, i); }
        }
      }
      if g.manifest.Some? {
        var i :| 0 <= i < |members| && members[i].name == MANIFEST;
        assert Read(lib, members).Success? ==> ManifestAt(lib, members, i);
      }
    }
  }

  // ----- what was written reads back

  lemma OwnEntryPasses(lib: Library, tree: SourceTree, paths: seq<seq<string>>, k: nat)
    requires Lawful(lib) && Walkable(tree) && k < |paths|
    requires forall p :: p in paths ==> p in tree
    requires forall i, j :: 0 <= i < j < |paths| ==> paths[i] != paths[j]
    ensures var files := EntriesOf(lib, tree, paths);
      CheckEntry(PathsOf(files[..k]),
        JsonEntry(files[k].path, files[k].sha256, Some(files[k].size))) == Success(files[k])
  {
    hide Join, Validate, ProperPath;
    var p := paths[k];
    assert p in paths && p in tree;
    ProperPathIsValid(p);
    NotSeen(tree, paths, k, PathsOf(EntriesOf(lib, tree, paths)[..k]));
  }

  lemma {:induction false} NormalizeOwn(lib: Library, tree: SourceTree, paths: seq<seq<string>>, k: nat)
    requires Lawful(lib) && Walkable(tree) && k <= |paths|
    requires forall p :: p in paths ==> p in tree
    requires forall i, j :: 0 <= i < j < |paths| ==> paths[i] != paths[j]
    ensures var files := EntriesOf(lib, tree, paths);
      && AsJson(files).files.Some? && |AsJson(files).files.value| == |paths|
      && Normalize(AsJson(files).files.value[..k]) == Success(files[..k])
    decreases k
  {
    hide CheckEntry, EntriesOf, Walkable, Lawful, PathsOf;
    var files := EntriesOf(lib, tree, paths);
    var json := AsJson(files).files.value;
    if k > 0 {
      NormalizeOwn(lib, tree, paths, k - 1);
      OwnEntryPasses(lib, tree, paths, k - 1);
      assert json[..k][..k - 1] == json[..k - 1];
      assert files[..k] == files[..k - 1] + [files[k - 1]];
    }
  }

  /** The payloads are the files. */
  ghost predicate SameFiles(tree: SourceTree, paths: seq<seq<string>>, payloads: Tree) {
    && (forall rel :: rel in payloads <==> exists i :: 0 <= i < |paths| && Join(paths[i]) == rel)
    && (forall i :: 0 <= i < |paths| ==>
      paths[i] in tree && Join(paths[i]) in payloads && payloads[Join(paths[i])] == tree[paths[i]].data)
  }

  lemma {:induction false} GatherOwn(lib: Library, tree: SourceTree, paths: seq<seq<string>>, k: nat)
    returns (g: Gathered)
    requires Walkable(tree) && k <= |paths|
    requires forall p :: p in paths ==> p in tree
    requires forall i, j :: 0 <= i < j < |paths| ==> paths[i] != paths[j]
    ensures var members := [ManifestMember(lib, EntriesOf(lib, tree, paths))] + MembersOf(tree, paths);
      && Gather(members[..k + 1]) == Success(g)
      && g.manifest == Some(lib.canonical(EntriesOf(lib, tree, paths)))
      && MemberNames(paths, k, g.names)
      && SameFiles(tree, paths[..k], g.payloads)
    decreases k
  {
    hide Join, Validate, ProperPath, SameFiles, MemberNames, EntriesOf;
    var members := [ManifestMember(lib, EntriesOf(lib, tree, paths))] + MembersOf(tree, paths);
    if k == 0 {
      assert members[..1] == [members[0]] && [members[0]][..0] == [];
      g := GatherOne(Gathered({}, map[], None), members[0]).value;
      NoFiles(tree, paths);
      assert g.names == {MANIFEST};
    } else {
      var before := GatherOwn(lib, tree, paths, k - 1);
      assert members[..k + 1][..k] == members[..k];
      var p := paths[k - 1];
      assert p in paths && p in tree && members[k] == MemberOf(p, tree[p]);
      ProperPathIsValid(p);
      assert members[k].name[|FILES|..] == Join(p);
      FreshMember(tree, paths, k - 1, before.names);
      assert FILES <= members[k].name;
      g := GatherOne(before, members[k]).value;
      OneMoreFile(tree, paths, k, before.payloads);
    }
  }

  ghost predicate MemberNames(paths: seq<seq<string>>, k: nat, names: set<string>) {
    forall n :: n in names ==> n == MANIFEST || exists i :: 0 <= i < k <= |paths| && n == FILES + Join(paths[i])
  }

  lemma NoFiles(tree: SourceTree, paths: seq<seq<string>>)
    ensures MemberNames(paths, 0, {MANIFEST}) && SameFiles(tree, paths[..0], map[])
  {
  }

  lemma FreshMember(tree: SourceTree, paths: seq<seq<string>>, k: nat, names: set<string>)
    requires Walkable(tree) && k < |paths| && forall p :: p in paths ==> p in tree
    requires forall i, j :: 0 <= i < j < |paths| ==> paths[i] != paths[j]
    requires MemberNames(paths, k, names)
    ensures FILES + Join(paths[k]) != MANIFEST && FILES + Join(paths[k]) !in names
    ensures MemberNames(paths, k + 1, names + {FILES + Join(paths[k])})
  {
    hide Join;
    var n := FILES + Join(paths[k]);
    assert n[0] == 'f' && MANIFEST[0] == 'm';
    forall i | 0 <= i < k ensures n != FILES + Join(paths[i]) {
      assert n[|FILES|..] == Join(paths[k]) && (FILES + Join(paths[i]))[|FILES|..] == Join(paths[i]);
      assert paths[i] in paths && paths[k] in paths;
      if Join(paths[i]) == Join(paths[k]) { JoinIsInjective(paths[i], paths[k]); }
    }
  }

  lemma JoinsDiffer(tree: SourceTree, p: seq<string>, q: seq<string>)
    requires Walkable(tree) && p in tree && q in tree && Join(p) == Join(q)
    ensures p == q
  {
    JoinIsInjective(p, q);
  }

  lemma OneMoreFile(tree: SourceTree, paths: seq<seq<string>>, k: nat, payloads: Tree)
    requires Walkable(tree) && 0 < k <= |paths| && forall p :: p in paths ==> p in tree
    requires forall i, j :: 0 <= i < j < |paths| ==> paths[i] != paths[j]
    requires SameFiles(tree, paths[..k - 1], payloads)
    ensures SameFiles(tree, paths[..k], payloads[Join(paths[k - 1]) := tree[paths[k - 1]].data])
  {
    hide Walkable, Join;
    var p, was, now := paths[k - 1], paths[..k - 1], paths[..k];
    assert p in paths;
    var more := payloads[Join(p) := tree[p].data];
    forall i | 0 <= i < k ensures Join(now[i]) in more && more[Join(now[i])] == tree[now[i]].data {
      assert now[i] in paths;
      if i < k - 1 {
        assert was[i] == now[i];
        if Join(now[i]) == Join(p) { JoinsDiffer(tree, now[i], p); }
      }
    }
    forall rel | rel in more ensures exists i :: 0 <= i < |now| && Join(now[i]) == rel {
      if rel == Join(p) {
        assert now[k - 1] == p;
      } else {
        var i :| 0 <= i < |was| && Join(was[i]) == rel;
        assert now[i] == was[i];
      }
    }
  }

  lemma OwnPayloadsMatch(lib: Library, tree: SourceTree, paths: seq<seq<string>>, payloads: Tree)
    requires forall p :: p in paths ==> p in tree
    requires SameFiles(tree, paths, payloads)
    ensures var entries := EntriesOf(lib, tree, paths);
      payloads.Keys == PathsOf(entries) && Checked(lib, entries, payloads)
  {
    hide Join;
    var entries := EntriesOf(lib, tree, paths);
    forall rel ensures rel in payloads <==> rel in PathsOf(entries) {
      if rel in payloads {
        var i :| 0 <= i < |paths| && Join(paths[i]) == rel;
        assert entries[i].path == rel;
      }
      if rel in PathsOf(entries) {
        var i :| 0 <= i < |entries| && entries[i].path == rel;
        assert Join(paths[i]) == rel;
      }
    }
  }

  lemma OwnManifestParses(lib: Library, tree: SourceTree, paths: seq<seq<string>>)
    requires Lawful(lib) && Walkable(tree)
    requires forall p :: p in paths ==> p in tree
    requires forall i, j :: 0 <= i < j < |paths| ==> paths[i] != paths[j]
    ensures var entries := EntriesOf(lib, tree, paths);
      ParseManifest(lib, lib.canonical(entries)) == Success(Manifest(entries, lib.digest(lib.canonical(entries))))
  {
    hide EntriesOf, Walkable, Normalize;
    var entries := EntriesOf(lib, tree, paths);
    NormalizeOwn(lib, tree, paths, |paths|);
    var json := AsJson(entries).files.value;
    assert json[..|paths|] == json && entries[..|paths|] == entries;
    assert lib.parse(lib.canonical(entries)) == AsJson(entries);
  }

  /** The bundle written from a tree reads back as that tree, with the same manifest. */
  lemma ReadsBack(lib: Library, tree: SourceTree)
    requires Lawful(lib) && Walkable(tree)
    ensures var r := Read(lib, Bundled(lib, tree).1);
      && r.Success?
      && r.value.0 == Bundled(lib, tree).0
      && SameFiles(tree, SortedPaths(tree.Keys), r.value.1)
      && Checked(lib, r.value.0.files, r.value.1)
  {
    hide EntriesOf, MembersOf, SameFiles, Checked, Walkable, Lawful, Gather, ParseManifest, PathsOf, SortedPaths;
    var paths := SortedPaths(tree.Keys);
    var members := Bundled(lib, tree).1;
    var g := GatherOwn(lib, tree, paths, |paths|);
    assert members[..|paths| + 1] == members && paths[..|paths|] == paths;
    OwnManifestParses(lib, tree, paths);
    OwnPayloadsMatch(lib, tree, paths, g.payloads);
  }

  /** A payload of the recorded size and digest. */
  predicate Matches(lib: Library, e: FileEntry, payloads: Tree) {
    e.path in payloads && |payloads[e.path]| == e.size && lib.digest(payloads[e.path]) == e.sha256
  }

  predicate Checked(lib: Library, files: seq<FileEntry>, payloads: Tree) {
    forall i :: 0 <= i < |files| ==> Matches(lib, files[i], payloads)
  }
}
