/**
 * `fetchRepoExecute` from src/lib/tools/fetchRepo.ts: parse the URL, list the blobs of
 * the repository tree, read the key files that exist, derive which standard files are
 * missing, and score the repository with the same checks as the health scorer.
 *
 * The GitHub calls are parameters: `remote` is what the metadata and tree requests
 * produced (or the exception they threw), and `fileContent` is what the contents request
 * returns for a path (None for the source's null).
 */
module FetchRepo {
  import opened Wrappers
  import opened Strings
  import opened GitHub
  import Health

  /** An entry of the recursive git tree; both fields may be absent. */
  datatype TreeItem = TreeItem(path: Option<string>, kind: Option<string>)

  /** The repository metadata fields the tool passes on. */
  datatype RepoInfo = RepoInfo(
    name: string, description: Option<string>, language: Option<string>, stars: nat, forks: nat,
    defaultBranch: string, topics: seq<string>, createdAt: string, updatedAt: string)

  /** The outcome of the metadata and tree requests. */
  datatype Remote = Loaded(info: RepoInfo, tree: seq<TreeItem>) | Failed(thrown: Option<string>)

  datatype FetchResult =
    | FetchError(error: string)
    | Fetched(owner: string, repo: string, metadata: RepoInfo, files: seq<string>, fileCount: nat,
              keyFilesContent: map<string, string>, missingFiles: Health.MissingFiles, report: Health.Report)

  /** `tree.filter(item => item.type === 'blob').map(item => item.path || '')` */
  function BlobPaths(tree: seq<TreeItem>): (files: seq<string>)
    ensures |files| <= |tree|
  {
    if tree == [] then []
    else
      var item := tree[|tree| - 1];
      BlobPaths(tree[..|tree| - 1]) + (if item.kind == Some("blob") then [item.path.GetOr("")] else [])
  }

  /** A path is listed exactly when some blob entry has it (a blob without a path gives ""). */
  lemma {:induction false} BlobPathsMembers(tree: seq<TreeItem>)
    ensures forall f :: f in BlobPaths(tree) <==>
      exists j :: 0 <= j < |tree| && tree[j].kind == Some("blob") && tree[j].path.GetOr("") == f
  {
    if tree != [] {
      var init := tree[..|tree| - 1];
      BlobPathsMembers(init);
      assert forall j :: 0 <= j < |init| ==> init[j] == tree[j];
    }
  }

  /** Listing the tree in two parts lists the blobs of each part in turn. */
  lemma {:induction false} BlobPathsAppend(a: seq<TreeItem>, b: seq<TreeItem>)
    ensures BlobPaths(a + b) == BlobPaths(a) + BlobPaths(b)
    decreases |b|
  {
    if b == [] {
      assert a + b == a;
    } else {
      var b' := b[..|b| - 1];
      assert (a + b)[..|a + b| - 1] == a + b';
      BlobPathsAppend(a, b');
    }
  }

  /** The files whose contents are read, in the order they are requested. */
  const KeyFiles: seq<string> := [
    "package.json", "README.md", "readme.md", ".gitignore", "LICENSE", "CONTRIBUTING.md",
    "requirements.txt", "setup.py", "Cargo.toml", "go.mod", "pom.xml"
  ]

  /** The key-file map after the requests for `names`, one after another. */
  function KeyFileContents(names: seq<string>, files: seq<string>, fileContent: string -> Option<string>)
    : (m: map<string, string>)
  {
    if names == [] then map[]
    else
      var m := KeyFileContents(names[..|names| - 1], files, fileContent);
      var name := names[|names| - 1];
      if name in files && Truthy(fileContent(name)) then m[name := fileContent(name).value] else m
  }

  /** A name is in the map exactly when it was requested, is listed, and came back non-empty; its value is that text. */
  lemma {:induction false} KeyFileContentsMembers(names: seq<string>, files: seq<string>, fileContent: string -> Option<string>)
    ensures var m := KeyFileContents(names, files, fileContent);
      (forall n :: n in m <==> n in names && n in files && Truthy(fileContent(n))) &&
      (forall n :: n in m ==> m[n] == fileContent(n).value)
  {
    if names != [] {
      var init := names[..|names| - 1];
      KeyFileContentsMembers(init, files, fileContent);
      assert names == init + [names[|names| - 1]];
    }
  }

  /** The key-file loop: each listed key file is requested, and a non-empty text is stored under its name. */
  method CollectKeyFiles(files: seq<string>, fileContent: string -> Option<string>)
    returns (keyFilesContent: map<string, string>)
    ensures keyFilesContent == KeyFileContents(KeyFiles, files, fileContent)
  {
    keyFilesContent := map[];
    for j := 0 to |KeyFiles|
      invariant keyFilesContent == KeyFileContents(KeyFiles[..j], files, fileContent)
    {
      var file := KeyFiles[j];
      assert KeyFiles[..j + 1][..j] == KeyFiles[..j];
      if file in files {
        var content := fileContent(file);
        if content.Some? && content.value != "" {
          keyFilesContent := keyFilesContent[file := content.value];
        }
      }
    }
    assert KeyFiles[..|KeyFiles|] == KeyFiles;
  }

  /** The standard-file tests: README.md and CONTRIBUTING.md by exact path in any case, LICENSE as a prefix in any case, .gitignore exactly. */
  predicate HasReadme(files: seq<string>) { exists f :: f in files && ToLower(f) == "readme.md" }
  predicate HasLicense(files: seq<string>) { exists f :: f in files && StartsWith(ToLower(f), "license") }
  predicate HasContributing(files: seq<string>) { exists f :: f in files && ToLower(f) == "contributing.md" }

  /** `missingFiles` */
  function DeriveMissing(files: seq<string>): (m: Health.MissingFiles)
    ensures m.gitignore <==> ".gitignore" !in files
    ensures m.readme <==> forall f :: f in files ==> ToLower(f) != "readme.md"
    ensures m.license <==> forall f :: f in files ==> !StartsWith(ToLower(f), "license")
    ensures m.contributing <==> forall f :: f in files ==> ToLower(f) != "contributing.md"
  {
    Health.MissingFiles(!HasReadme(files), ".gitignore" !in files, !HasLicense(files), !HasContributing(files))
  }

  /** What `fetchRepoExecute` returns. */
  function FetchRepo(repoUrl: string, remote: Remote, fileContent: string -> Option<string>): FetchResult {
    match ParseGitHubUrl(repoUrl)
    case None => FetchError("Invalid GitHub URL")
    case Some(parsed) =>
      match remote
      case Failed(thrown) => FetchError(thrown.GetOr("Failed to fetch repository"))
      case Loaded(info, tree) =>
        var files := BlobPaths(tree);
        var keyFilesContent := KeyFileContents(KeyFiles, files, fileContent);
        var missing := DeriveMissing(files);
        Fetched(parsed.owner, parsed.repo, info, files, |files|, keyFilesContent, missing,
                Health.Assess(Health.Snapshot(files, missing, keyFilesContent)))
  }

  /**
   * `fetchRepoExecute`. The scoring block inlined in the source is the health scorer's
   * code line for line, so it is modelled by calling that method.
   */
  method FetchRepoExecute(repoUrl: string, remote: Remote, fileContent: string -> Option<string>)
    returns (result: FetchResult)
    ensures result == FetchRepo(repoUrl, remote, fileContent)
    ensures ParseGitHubUrl(repoUrl).None? ==> result == FetchError("Invalid GitHub URL")
    ensures result.Fetched? ==>
      && result.fileCount == |result.files|
      && result.report == Health.Assess(Health.Snapshot(result.files, result.missingFiles, result.keyFilesContent))
  {
    var parsed := ParseGitHubUrl(repoUrl);
    if parsed.None? {
      return FetchError("Invalid GitHub URL");
    }
    var owner, repo := parsed.value.owner, parsed.value.repo;
    match remote {
      case Failed(thrown) =>
        result := FetchError(if thrown.Some? then thrown.value else "Failed to fetch repository");
      case Loaded(info, tree) =>
        var files := BlobPaths(tree);
        var keyFilesContent := CollectKeyFiles(files, fileContent);
        var missingFiles := DeriveMissing(files);
        var metadata := Health.Metadata(info.name, info.description, info.language);
        var report := Health.AnalyzeStructureExecute(files, metadata, missingFiles, keyFilesContent);
        result := Fetched(owner, repo, info, files, |files|, keyFilesContent, missingFiles, report);
    }
  }

  /**
   * What a fetch yields: an error exactly when the URL does not parse or a request threw;
   * otherwise the parsed owner and name, the blob paths, a key-file map holding exactly the
   * listed key files that came back non-empty, and the health report of those.
   */
  lemma FetchRepoOutcome(repoUrl: string, remote: Remote, fileContent: string -> Option<string>)
    ensures var r := FetchRepo(repoUrl, remote, fileContent);
      && (r.FetchError? <==> ParseGitHubUrl(repoUrl).None? || remote.Failed?)
      && (ParseGitHubUrl(repoUrl).Some? && remote.Failed? ==>
            r.error == remote.thrown.GetOr("Failed to fetch repository"))
      && (r.Fetched? ==>
            && ParseGitHubUrl(repoUrl) == Some(RepoRef(r.owner, r.repo))
            && r.files == BlobPaths(remote.tree)
            && r.fileCount == |r.files|
            && (forall n :: n in r.keyFilesContent <==> n in KeyFiles && n in r.files && Truthy(fileContent(n)))
            && (forall n :: n in r.keyFilesContent ==> r.keyFilesContent[n] == fileContent(n).value)
            && r.missingFiles == DeriveMissing(r.files)
            && r.report == Health.Assess(Health.Snapshot(r.files, r.missingFiles, r.keyFilesContent)))
  {
    if remote.Loaded? {
      KeyFileContentsMembers(KeyFiles, BlobPaths(remote.tree), fileContent);
    }
  }

  /**
   * A root "Readme.md" (neither "README.md" nor "readme.md") counts as present, but is
   * never read, so the short-README check cannot fire whatever its length.
   */
  lemma MixedCaseReadmeNeverShort(files: seq<string>, fileContent: string -> Option<string>)
    requires "Readme.md" in files && "README.md" !in files && "readme.md" !in files
    ensures var missing := DeriveMissing(files);
      var report := Health.Assess(Health.Snapshot(files, missing, KeyFileContents(KeyFiles, files, fileContent)));
      !missing.readme && Health.ShortReadme !in report.issues && Health.MissingReadme !in report.issues
  {
    assert ToLower("Readme.md") == "readme.md";
    KeyFileContentsMembers(KeyFiles, files, fileContent);
  }
}
