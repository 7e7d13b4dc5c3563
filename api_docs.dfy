/**
 * The deterministic part of src/lib/tools/generateApiDocs.ts: which files are documented,
 * what of each is put in the prompt, the failure when nothing could be read, and the
 * bounded retry of the generation.
 *
 * `fileContent` stands for the contents request of a path (None for null), and
 * `generate(prompt, attempt)` is what the language model call of that attempt yields.
 */
module ApiDocs {
  import opened Wrappers
  import opened Strings
  import opened Seqs
  import opened Prompts

  datatype ApiDocsResult =
    | ApiDocsOk(fileName: string, content: string, filesDocumented: seq<string>)
    | ApiDocsError(error: string)

  const CodeExtensions: seq<string> := [".ts", ".js", ".tsx", ".jsx", ".py", ".java", ".go", ".rs"]

  const MaxCodeFiles: nat := 10

  const MaxCharsPerFile: nat := 2000

  const MaxRetries: nat := 2

  /**
   * `f.substring(f.lastIndexOf('.'))`: the text from the last '.' on. Without a '.' the
   * start is -1, which `substring` treats as 0, so the whole path is returned.
   */
  function Extension(f: string): (ext: string)
    ensures '.' !in f ==> ext == f
    ensures '.' in f ==> ext != [] && ext[0] == '.' && EndsWith(f, ext) && '.' !in ext[1..]
  {
    var i := LastIndexOf(f, '.');
    if i < 0 then f
    else
      assert forall j :: 1 <= j < |f[i..]| ==> f[i..][j] == f[i + j];
      f[i..]
  }

  /** The filter of `codeFiles`. */
  predicate IsCodeFile(f: string) {
    Extension(f) in CodeExtensions
    && !Contains(f, "node_modules") && !Contains(f, "test") && !Contains(f, "spec") && !Contains(f, ".d.ts")
  }

  /** Every listed extension is a '.' followed by letters. */
  lemma CodeExtensionsShape()
    ensures forall e :: e in CodeExtensions ==> |e| >= 2 && e[0] == '.' && '.' !in e[1..]
  {
  }

  /** A path whose last '.' starts e, a '.' followed by no other '.', has extension e. */
  lemma ExtensionOfSuffix(f: string, e: string)
    requires |e| >= 1 && e[0] == '.' && '.' !in e[1..] && EndsWith(f, e)
    ensures Extension(f) == e
  {
    var k := |f| - |e|;
    assert f[k] == e[0];
    forall j | k < j < |f| ensures f[j] != '.' {
      assert f[j] == e[1..][j - k - 1];
    }
    var i := LastIndexOf(f, '.');
    assert i == k;
  }

  /**
   * The extension test is a suffix test: a path passes it exactly when it ends with one
   * of the listed extensions. A path without any '.' never passes.
   */
  lemma ExtensionTestIsSuffixTest(f: string)
    ensures Extension(f) in CodeExtensions <==> exists e :: e in CodeExtensions && EndsWith(f, e)
    ensures '.' !in f ==> Extension(f) !in CodeExtensions
  {
    CodeExtensionsShape();
    if exists e :: e in CodeExtensions && EndsWith(f, e) {
      var e :| e in CodeExtensions && EndsWith(f, e);
      ExtensionOfSuffix(f, e);
    }
  }

  /** Declaration files end in '.ts' but are skipped. */
  lemma DeclarationFilesSkipped(f: string)
    requires EndsWith(f, ".d.ts")
    ensures !IsCodeFile(f)
  {
    assert OccursAt(f, ".d.ts", |f| - 5);
    ContainsOccurs(f, ".d.ts");
  }

  /** `files.filter(...).slice(0, 10)`: the first ten code files, in listing order. */
  function CodeFiles(files: seq<string>): (r: seq<string>)
    ensures |r| <= MaxCodeFiles
    ensures forall f :: f in r ==> f in files && IsCodeFile(f)
    ensures |r| < MaxCodeFiles ==> forall f :: f in files && IsCodeFile(f) ==> f in r
    ensures IsSubsequence(r, files)
    ensures exists n :: 0 <= n <= |files| && r == Filter(files[..n], IsCodeFile)
  {
    TakeFilter(files, IsCodeFile, MaxCodeFiles);
    Take(Filter(files, IsCodeFile), MaxCodeFiles)
  }

  /** One entry of `codeContents`: a header line with the path, then at most 2000 characters of the file. */
  function Section(file: string, content: string): (s: string)
    ensures |s| <= |file| + 10 + MaxCharsPerFile
    ensures StartsWith(s, "\n--- " + file + " ---\n")
    ensures var h := |"\n--- " + file + " ---\n"|;
      && s[h..] <= content
      && |s| - h == if |content| <= MaxCharsPerFile then |content| else MaxCharsPerFile
  {
    var s := "\n--- " + file + " ---\n" + Take(content, MaxCharsPerFile);
    assert s[..|"\n--- " + file + " ---\n"|] == "\n--- " + file + " ---\n";
    assert s[|"\n--- " + file + " ---\n"|..] == Take(content, MaxCharsPerFile);
    s
  }

  /** `codeContents` after the requests for `codeFiles`: a non-empty reply adds its section. */
  function CodeContents(codeFiles: seq<string>, fileContent: string -> Option<string>): seq<string> {
    if codeFiles == [] then []
    else
      var init := CodeContents(codeFiles[..|codeFiles| - 1], fileContent);
      var file := codeFiles[|codeFiles| - 1];
      if Truthy(fileContent(file)) then init + [Section(file, fileContent(file).value)] else init
  }

  /**
   * There is at most one section per chosen file, each the section of a chosen file that
   * came back non-empty, and there are none exactly when no chosen file did.
   */
  lemma {:induction false} CodeContentsSpec(codeFiles: seq<string>, fileContent: string -> Option<string>)
    ensures var r := CodeContents(codeFiles, fileContent);
      && |r| <= |codeFiles|
      && (forall s :: s in r ==> exists f :: f in codeFiles && Truthy(fileContent(f)) && s == Section(f, fileContent(f).value))
      && (r == [] <==> forall f :: f in codeFiles ==> !Truthy(fileContent(f)))
  {
    if codeFiles != [] {
      var init := codeFiles[..|codeFiles| - 1];
      CodeContentsSpec(init, fileContent);
      assert codeFiles == init + [codeFiles[|codeFiles| - 1]];
    }
  }

  /** The loop that fetches each chosen file and pushes its section. */
  method GatherCode(codeFiles: seq<string>, fileContent: string -> Option<string>) returns (codeContents: seq<string>)
    ensures codeContents == CodeContents(codeFiles, fileContent)
  {
    codeContents := [];
    for j := 0 to |codeFiles|
      invariant codeContents == CodeContents(codeFiles[..j], fileContent)
    {
      var file := codeFiles[j];
      assert codeFiles[..j + 1][..j] == codeFiles[..j];
      var content := fileContent(file);
      if content.Some? && content.value != "" {
        codeContents := codeContents + ["\n--- " + file + " ---\n" + Take(content.value, MaxCharsPerFile)];
      }
    }
    assert codeFiles[..|codeFiles|] == codeFiles;
  }

  /** `API_DOCS_PROMPT.replace('{codeFiles}', codeContents.join('\n'))` */
  function ApiDocsPrompt(codeContents: seq<string>): string {
    ReplaceFirst(ApiDocsTemplate, "{codeFiles}", Join(codeContents, "\n"))
  }

  /** The sections land in place of the placeholder, whatever they contain. */
  lemma ApiDocsPromptFilled(codeContents: seq<string>)
    ensures ApiDocsPrompt(codeContents) == ApiDocsHead + Join(codeContents, "\n") + ApiDocsTail
  {
    ApiDocsHeadHasNoBrace();
    ReplaceFirstAfter(ApiDocsHead, "{codeFiles}", ApiDocsTail, Join(codeContents, "\n"));
  }

  /** The retry loop from attempt `attempt` on. */
  function Attempts(prompt: string, codeFiles: seq<string>, attempt: nat, generate: (string, nat) -> Reply)
    : ApiDocsResult
    decreases MaxRetries + 1 - attempt
  {
    if attempt > MaxRetries then ApiDocsError("Max retries exceeded")
    else
      match generate(prompt, attempt)
      case Text(text) => ApiDocsOk("API_DOCS.md", text, codeFiles)
      case Thrown(message) =>
        if attempt == MaxRetries then ApiDocsError(message.GetOr("Failed to generate API documentation"))
        else Attempts(prompt, codeFiles, attempt + 1, generate)
  }

  /**
   * At most two generation attempts: the first text wins, otherwise the error of the
   * second attempt is reported. The 'Max retries exceeded' fallback is never reached.
   */
  lemma AttemptsOutcome(prompt: string, codeFiles: seq<string>, generate: (string, nat) -> Reply)
    ensures Attempts(prompt, codeFiles, 1, generate)
         == if generate(prompt, 1).Text? then ApiDocsOk("API_DOCS.md", generate(prompt, 1).text, codeFiles)
            else if generate(prompt, 2).Text? then ApiDocsOk("API_DOCS.md", generate(prompt, 2).text, codeFiles)
            else ApiDocsError(generate(prompt, 2).message.GetOr("Failed to generate API documentation"))
  {
    assert Attempts(prompt, codeFiles, 2, generate)
        == if generate(prompt, 2).Text? then ApiDocsOk("API_DOCS.md", generate(prompt, 2).text, codeFiles)
           else ApiDocsError(generate(prompt, 2).message.GetOr("Failed to generate API documentation"));
  }

  /** What `generateApiDocsExecute({owner, repo, files})` returns. */
  function GenerateApiDocs(files: seq<string>, fileContent: string -> Option<string>, generate: (string, nat) -> Reply)
    : ApiDocsResult
  {
    var codeFiles := CodeFiles(files);
    var codeContents := CodeContents(codeFiles, fileContent);
    if codeContents == [] then ApiDocsError("No code files found to document")
    else Attempts(ApiDocsPrompt(codeContents), codeFiles, 1, generate)
  }

  /** The retry loop: an attempt that yields text returns; the last failed attempt returns its error. */
  method Retry(prompt: string, codeFiles: seq<string>, generate: (string, nat) -> Reply) returns (result: ApiDocsResult)
    ensures result == Attempts(prompt, codeFiles, 1, generate)
  {
    var attempt := 1;
    while attempt <= MaxRetries
      invariant 1 <= attempt <= MaxRetries + 1
      invariant Attempts(prompt, codeFiles, 1, generate) == Attempts(prompt, codeFiles, attempt, generate)
      decreases MaxRetries + 1 - attempt
    {
      var reply := generate(prompt, attempt);
      match reply {
        case Text(text) =>
          return ApiDocsOk("API_DOCS.md", text, codeFiles);
        case Thrown(message) =>
          if attempt == MaxRetries {
            return ApiDocsError(if message.Some? then message.value else "Failed to generate API documentation");
          }
      }
      attempt := attempt + 1;
    }
    return ApiDocsError("Max retries exceeded");
  }

  /** `generateApiDocsExecute`: choose, read, fail when nothing was read, otherwise generate with retry. */
  method GenerateApiDocsExecute(files: seq<string>, fileContent: string -> Option<string>, generate: (string, nat) -> Reply)
    returns (result: ApiDocsResult)
    ensures result == GenerateApiDocs(files, fileContent, generate)
    ensures result.ApiDocsOk? ==> result.fileName == "API_DOCS.md" && result.filesDocumented == CodeFiles(files)
  {
    var codeFiles := CodeFiles(files);
    var codeContents := GatherCode(codeFiles, fileContent);
    if |codeContents| == 0 {
      return ApiDocsError("No code files found to document");
    }
    var prompt := ReplaceFirst(ApiDocsTemplate, "{codeFiles}", Join(codeContents, "\n"));
    result := Retry(prompt, codeFiles, generate);
    AttemptsOutcome(prompt, codeFiles, generate);
  }

  /**
   * When none of the chosen files yields text the tool fails without calling the
   * generator, whatever the generator would have answered.
   */
  lemma NothingReadNothingGenerated(files: seq<string>, fileContent: string -> Option<string>,
                                    g1: (string, nat) -> Reply, g2: (string, nat) -> Reply)
    requires forall f :: f in CodeFiles(files) ==> !Truthy(fileContent(f))
    ensures GenerateApiDocs(files, fileContent, g1) == GenerateApiDocs(files, fileContent, g2)
         == ApiDocsError("No code files found to document")
  {
    CodeContentsSpec(CodeFiles(files), fileContent);
  }
}
