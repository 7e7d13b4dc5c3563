/**
 * The deterministic part of src/lib/tools/generateGitignore.ts: the framework and
 * package-manager decision table, the filled prompt, and the shape of the result. The
 * language model is a parameter: `generate` gives what one `generateText` call yields
 * for a prompt.
 */
module Gitignore {
  import opened Wrappers
  import opened Strings
  import opened Seqs
  import opened Prompts

  datatype Stack = Stack(framework: string, packageManager: string)

  datatype GitignoreResult =
    | GitignoreOk(fileName: string, content: string, detectedFramework: string)
    | GitignoreError(error: string)

  predicate AnyContains(files: seq<string>, p: string) {
    exists f :: f in files && Contains(f, p)
  }

  /** The if/else chain that sets `framework` and `packageManager`. */
  function DetectStack(files: seq<string>): (r: Stack)
    ensures "package.json" in files ==>
      r.packageManager == "npm" && r.framework in ["Next.js", "Vite", "Angular", "Vue", "Node.js"]
    ensures r.framework == "unknown" <==> r.packageManager == "unknown"
  {
    if "package.json" in files then
      Stack(if AnyContains(files, "next.config") then "Next.js"
            else if "vite.config.ts" in files || "vite.config.js" in files then "Vite"
            else if AnyContains(files, "angular.json") then "Angular"
            else if "vue.config.js" in files then "Vue"
            else "Node.js",
            "npm")
    else if "requirements.txt" in files || "setup.py" in files then Stack("Python", "pip")
    else if "Cargo.toml" in files then Stack("Rust", "cargo")
    else if "go.mod" in files then Stack("Go", "go mod")
    else Stack("unknown", "unknown")
  }

  /**
   * package.json wins over every other manifest, and each later manifest counts only
   * when the earlier ones are absent; with none of them both fields stay 'unknown'.
   */
  lemma DetectStackPrecedence(files: seq<string>)
    ensures var r := DetectStack(files);
      && (r.packageManager == "npm" <==> "package.json" in files)
      && (r == Stack("Python", "pip") <==> "package.json" !in files && ("requirements.txt" in files || "setup.py" in files))
      && (r == Stack("Rust", "cargo") <==>
            "package.json" !in files && "requirements.txt" !in files && "setup.py" !in files && "Cargo.toml" in files)
      && (r == Stack("Go", "go mod") <==>
            "package.json" !in files && "requirements.txt" !in files && "setup.py" !in files && "Cargo.toml" !in files
            && "go.mod" in files)
      && (r.framework == "unknown" <==>
            "package.json" !in files && "requirements.txt" !in files && "setup.py" !in files && "Cargo.toml" !in files
            && "go.mod" !in files)
  {
  }

  /** Within a Node project the first matching signal names the framework. */
  lemma NodeFrameworkOrder(files: seq<string>)
    requires "package.json" in files
    ensures var f := DetectStack(files).framework;
      && (f == "Next.js" <==> AnyContains(files, "next.config"))
      && (f == "Vite" <==> !AnyContains(files, "next.config") && ("vite.config.ts" in files || "vite.config.js" in files))
      && (f == "Angular" <==> !AnyContains(files, "next.config") && "vite.config.ts" !in files && "vite.config.js" !in files
                              && AnyContains(files, "angular.json"))
      && (f == "Node.js" <==> !AnyContains(files, "next.config") && "vite.config.ts" !in files && "vite.config.js" !in files
                              && !AnyContains(files, "angular.json") && "vue.config.js" !in files)
  {
  }

  /** `language || 'Unknown'` */
  function LanguageText(language: Option<string>): string {
    if Truthy(language) then language.value else "Unknown"
  }

  /** `files.slice(0, 30).join(', ')` */
  function FileList(files: seq<string>): string {
    Join(Take(files, 30), ", ")
  }

  /** The chained `.replace` calls on the template: each fills the first occurrence of its placeholder. */
  function GitignorePrompt(language: Option<string>, files: seq<string>): string {
    var stack := DetectStack(files);
    ReplaceFirst(
      ReplaceFirst(
        ReplaceFirst(
          ReplaceFirst(GitignoreTemplate, "{language}", LanguageText(language)),
          "{framework}", stack.framework),
        "{packageManager}", stack.packageManager),
      "{files}", FileList(files))
  }

  /** Each piece of a computed stack is free of '{'. */
  lemma StackHasNoBrace(files: seq<string>)
    ensures '{' !in DetectStack(files).framework && '{' !in DetectStack(files).packageManager
  {
  }

  /**
   * One `.replace` of the chain: the placeholder right after a '{'-free prefix is the
   * first occurrence, so the value lands there and the fixed text after it follows.
   */
  lemma FillNext(done: string, placeholder: string, value: string, after: string, rest: string)
    requires placeholder != [] && placeholder[0] !in done
    ensures ReplaceFirst(done + (placeholder + (after + rest)), placeholder, value) == done + value + after + rest
  {
    assert done + (placeholder + (after + rest)) == done + placeholder + (after + rest);
    ReplaceFirstAfter(done, placeholder, after + rest, value);
    assert done + value + (after + rest) == done + value + after + rest;
  }

  /** The four `.replace` calls in turn, on a template whose fixed pieces before the last placeholder hold no '{'. */
  lemma FillInTurn(head: string, afterLanguage: string, afterFramework: string, afterManager: string, tail: string,
                   language: string, framework: string, manager: string, fileList: string)
    requires '{' !in head && '{' !in afterLanguage && '{' !in afterFramework && '{' !in afterManager
    requires '{' !in language && '{' !in framework && '{' !in manager
    ensures ReplaceFirst(ReplaceFirst(ReplaceFirst(ReplaceFirst(
              head + ("{language}" + (afterLanguage + ("{framework}" + (afterFramework
              + ("{packageManager}" + (afterManager + ("{files}" + tail))))))),
              "{language}", language), "{framework}", framework), "{packageManager}", manager), "{files}", fileList)
         == head + language + afterLanguage + framework + afterFramework + manager + afterManager + fileList + tail
  {
    var r3 := "{files}" + tail;
    var r2 := "{packageManager}" + (afterManager + r3);
    var r1 := "{framework}" + (afterFramework + r2);
    var x1 := head + language + afterLanguage;
    var x2 := x1 + framework + afterFramework;
    var x3 := x2 + manager + afterManager;
    var s1 := ReplaceFirst(head + ("{language}" + (afterLanguage + r1)), "{language}", language);
    FillNext(head, "{language}", language, afterLanguage, r1);
    assert s1 == x1 + r1;
    var s2 := ReplaceFirst(s1, "{framework}", framework);
    FillNext(x1, "{framework}", framework, afterFramework, r2);
    assert s2 == x2 + r2;
    var s3 := ReplaceFirst(s2, "{packageManager}", manager);
    FillNext(x2, "{packageManager}", manager, afterManager, r3);
    assert s3 == x3 + r3;
    assert x3 + r3 == x3 + "{files}" + tail;
    ReplaceFirstAfter(x3, "{files}", tail, fileList);
  }

  /**
   * When the language text holds no '{', every placeholder is filled with its own value.
   * (A language text holding a later placeholder would have that one replaced instead.)
   */
  lemma GitignorePromptFilled(language: Option<string>, files: seq<string>)
    requires '{' !in LanguageText(language)
    ensures var stack := DetectStack(files);
      GitignorePrompt(language, files)
        == GitignoreHead + LanguageText(language) + GitignoreAfterLanguage + stack.framework + GitignoreAfterFramework
           + stack.packageManager + GitignoreAfterPackageManager + FileList(files) + GitignoreTail
  {
    GitignorePiecesHaveNoBrace();
    StackHasNoBrace(files);
    var stack := DetectStack(files);
    FillInTurn(GitignoreHead, GitignoreAfterLanguage, GitignoreAfterFramework, GitignoreAfterPackageManager,
               GitignoreTail, LanguageText(language), stack.framework, stack.packageManager, FileList(files));
  }

  /** `generateGitignoreExecute({language, files})` */
  function GenerateGitignore(language: Option<string>, files: seq<string>, generate: string -> Reply)
    : (r: GitignoreResult)
    ensures r.GitignoreOk? <==> generate(GitignorePrompt(language, files)).Text?
    ensures r.GitignoreOk? ==>
      r.fileName == ".gitignore" && r.detectedFramework == DetectStack(files).framework
      && r.content == generate(GitignorePrompt(language, files)).text
    ensures r.GitignoreError? ==>
      r.error == generate(GitignorePrompt(language, files)).message.GetOr("Failed to generate .gitignore")
  {
    match generate(GitignorePrompt(language, files))
    case Text(text) => GitignoreOk(".gitignore", text, DetectStack(files).framework)
    case Thrown(message) => GitignoreError(message.GetOr("Failed to generate .gitignore"))
  }
}
