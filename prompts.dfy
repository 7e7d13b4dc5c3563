/**
 * The prompt texts of src/lib/prompts.ts that the modelled tools fill in, and the two
 * prompt builders used by the front end: `FETCH_REPO_PROMPT` and `GENERATE_FILES_PROMPT`.
 * A template with placeholders is written as its fixed pieces around the placeholders.
 */
module Prompts {
  import opened Strings

  // ---------------------------------------------------------------------------
  // GITIGNORE_PROMPT
  // ---------------------------------------------------------------------------

  const GitignoreHead: string := "Generate a .gitignore " + "file for this project." + "\n\nDetected Language: "
  const GitignoreAfterLanguage: string := "\nDetected Framework: "
  const GitignoreAfterFramework: string := "\nPackage Manager: "
  const GitignoreAfterPackageManager: string := "\nFiles in repo: "
  const GitignoreTail: string :=
    "\n\nInclude:\n1. Standard ignores for the detected language/framework\n2. IDE/editor files (.idea, .vscode, etc.)\n"
    + "3. OS files (.DS_Store, Thumbs.db)\n4. Environment files (.env, .env.local)\n5. Build outputs\n"
    + "6. Dependencies folders\n\nOnly output the .gitignore content, no explanations."

  const GitignoreTemplate: string :=
    GitignoreHead + ("{language}" + (GitignoreAfterLanguage + ("{framework}" + (GitignoreAfterFramework
    + ("{packageManager}" + (GitignoreAfterPackageManager + ("{files}" + GitignoreTail)))))))

  /** No fixed piece before the last placeholder holds a '{'. */
  lemma GitignorePiecesHaveNoBrace()
    ensures '{' !in GitignoreHead && '{' !in GitignoreAfterLanguage
    ensures '{' !in GitignoreAfterFramework && '{' !in GitignoreAfterPackageManager
  {
  }

  // ---------------------------------------------------------------------------
  // API_DOCS_PROMPT
  // ---------------------------------------------------------------------------

  const ApiDocsHead: string := "Generate API documentation " + "for this codebase.\n\n" + "Files to document:\n"
  const ApiDocsTail: string :=
    "\n\nFor each function/class/endpoint found:\n1. Name and signature\n2. Description of what it does\n"
    + "3. Parameters with types and descriptions\n4. Return value\n5. Example usage\n\n"
    + "Format as clean markdown with proper code blocks."

  const ApiDocsTemplate: string := ApiDocsHead + "{codeFiles}" + ApiDocsTail

  lemma ApiDocsHeadHasNoBrace()
    ensures '{' !in ApiDocsHead
  {
  }

  // ---------------------------------------------------------------------------
  // FETCH_REPO_PROMPT
  // ---------------------------------------------------------------------------

  const FetchRepoHead: string := "Analyze this GitHub repository: "
  const FetchRepoTail: string :=
    "\n\nIMPORTANT: You MUST complete ALL steps in order:\n1. Use fetchRepo to get the repository structure\n"
    + "2. Use analyzeStructure to evaluate it and calculate health scores\n"
    + "3. Return the scores, issues, and recommendations\n\n"
    + "Do NOT stop after fetchRepo - you MUST also call analyzeStructure."

  /** `FETCH_REPO_PROMPT(repoUrl)`: the URL is embedded verbatim right after the opening sentence. */
  function FetchRepoPrompt(repoUrl: string): (r: string)
    ensures |r| == |FetchRepoHead| + |repoUrl| + |FetchRepoTail|
    ensures StartsWith(r, FetchRepoHead)
    ensures r[|FetchRepoHead|..|FetchRepoHead| + |repoUrl|] == repoUrl
  {
    var r := FetchRepoHead + repoUrl + FetchRepoTail;
    assert r[..|FetchRepoHead|] == FetchRepoHead;
    assert r[|FetchRepoHead|..|FetchRepoHead| + |repoUrl|] == repoUrl;
    r
  }

  /** Nothing of the URL is lost: different URLs give different prompts. */
  lemma FetchRepoPromptInjective(u1: string, u2: string)
    requires FetchRepoPrompt(u1) == FetchRepoPrompt(u2)
    ensures u1 == u2
  {
    var r := FetchRepoPrompt(u1);
    assert |u1| == |u2|;
    calc {
      u1;
      r[|FetchRepoHead|..|FetchRepoHead| + |u1|];
      FetchRepoPrompt(u2)[|FetchRepoHead|..|FetchRepoHead| + |u2|];
      u2;
    }
  }

  // ---------------------------------------------------------------------------
  // GENERATE_FILES_PROMPT
  // ---------------------------------------------------------------------------

  const FilesHeader: string := "Based on the repository " + "analysis, please perform " + "these actions:"

  const ReadmeSentence: string := "Generate a comprehensive " + "README.md file."
  const GitignoreSentence: string := "Generate an appropriate " + ".gitignore file."
  const LicenseSentence: string := "Generate an MIT " + "LICENSE file."
  const ContributingSentence: string := "Generate a " + "CONTRIBUTING.md file."
  const ApiDocsSentence: string := "Generate API " + "documentation."

  lemma FileSentencesOneLine()
    ensures '\n' !in ReadmeSentence && '\n' !in GitignoreSentence && '\n' !in LicenseSentence
  {
  }

  lemma DocSentencesOneLine()
    ensures '\n' !in ContributingSentence && '\n' !in ApiDocsSentence
  {
  }

  /** The `switch` of `GENERATE_FILES_PROMPT`: unknown keys give the empty string. */
  function ActionSentence(action: string): (s: string)
    ensures '\n' !in s
  {
    FileSentencesOneLine();
    DocSentencesOneLine();
    match action
    case "readme" => ReadmeSentence
    case "gitignore" => GitignoreSentence
    case "license" => LicenseSentence
    case "contributing" => ContributingSentence
    case "api-docs" => ApiDocsSentence
    case _ => ""
  }

  /** The five keys the prompt knows. */
  predicate Recognised(action: string) {
    action in ["readme", "gitignore", "license", "contributing", "api-docs"]
  }

  /** `actions.map(...).filter(Boolean)` */
  function ActionSentences(actions: seq<string>): (r: seq<string>)
    ensures |r| <= |actions|
    ensures forall s :: s in r ==> s != "" && '\n' !in s
  {
    if actions == [] then []
    else (if ActionSentence(actions[0]) != "" then [ActionSentence(actions[0])] else []) + ActionSentences(actions[1..])
  }

  /** One action gives its sentence exactly when it is a recognised key. */
  lemma ActionSentencesSingle(action: string)
    ensures ActionSentences([action]) == if Recognised(action) then [ActionSentence(action)] else []
  {
    assert [action][1..] == [];
  }

  /** Sentences follow the actions: order and repetitions are kept. */
  lemma {:induction false} ActionSentencesAppend(a: seq<string>, b: seq<string>)
    ensures ActionSentences(a + b) == ActionSentences(a) + ActionSentences(b)
  {
    if a == [] {
      assert a + b == b;
    } else {
      assert (a + b)[0] == a[0] && (a + b)[1..] == a[1..] + b;
      ActionSentencesAppend(a[1..], b);
    }
  }

  /** The action ids of the health report are not keys of this prompt. */
  lemma ReportActionIdsDropped()
    ensures ActionSentences(["generateReadme", "generateGitignore", "generateLicense", "generateContributing"]) == []
  {
  }

  /** `GENERATE_FILES_PROMPT(actions)` */
  function GenerateFilesPrompt(actions: seq<string>): (r: string)
    ensures StartsWith(r, FilesHeader + "\n")
  {
    var r := FilesHeader + "\n" + Join(ActionSentences(actions), "\n");
    assert r[..|FilesHeader + "\n"|] == FilesHeader + "\n";
    r
  }

  /** Joining parts without c by c adds one c between each two. */
  lemma {:induction false} CountJoin(parts: seq<string>, c: char)
    requires |parts| >= 1
    requires forall p :: p in parts ==> c !in p
    ensures Count(Join(parts, [c]), c) == |parts| - 1
    decreases |parts|
  {
    CountZero(parts[0], c);
    if |parts| > 1 {
      CountJoin(parts[1..], c);
      CountAppend(parts[0], [c], c);
      CountAppend(parts[0] + [c], Join(parts[1..], [c]), c);
    }
  }

  /** A line without newline, a newline, then the parts joined by newlines. */
  lemma {:induction false} HeaderThenLines(header: string, parts: seq<string>)
    requires '\n' !in header
    requires forall p :: p in parts ==> '\n' !in p
    ensures Count(header + "\n" + Join(parts, "\n"), '\n') == if parts == [] then 1 else |parts|
  {
    CountZero(header, '\n');
    CountAppend(header, "\n", '\n');
    CountAppend(header + "\n", Join(parts, "\n"), '\n');
    if parts != [] {
      CountJoin(parts, '\n');
    }
  }

  lemma FilesHeaderIsOneLine()
    ensures '\n' !in FilesHeader
  {
  }

  /**
   * The header is followed by one line per recognised key; with none, the result is
   * the header and a single newline.
   */
  lemma GenerateFilesPromptLines(actions: seq<string>)
    ensures var n := |ActionSentences(actions)|;
      Count(GenerateFilesPrompt(actions), '\n') == if n == 0 then 1 else n
    ensures ActionSentences(actions) == [] ==> GenerateFilesPrompt(actions) == FilesHeader + "\n"
  {
    FilesHeaderIsOneLine();
    HeaderThenLines(FilesHeader, ActionSentences(actions));
  }
}
