/**
 * The repository health scorer of src/lib/tools/analyzeStructure.ts.
 *
 * `Assess` is the reference definition: each of the nine checks is a row of a fixed
 * table (which issue it reports, when it fires, which score it lowers and by how much),
 * the issue list is the fired rows in table order, and each score is 100 minus the
 * penalties of its reported issues, floored at 0. `AnalyzeStructureExecute` is the
 * source's step-by-step computation, proved to yield `Assess`.
 */
module Health {
  import opened Wrappers
  import opened Strings
  import opened Seqs

  /** Which standard files the repository lacks. */
  datatype MissingFiles = MissingFiles(readme: bool, gitignore: bool, license: bool, contributing: bool)

  /** Repository metadata, accepted by the scorer and never read by it. */
  datatype Metadata = Metadata(name: string, description: Option<string>, language: Option<string>)

  /** What the scorer reads: the file list, the missing-file flags and the fetched key files. */
  datatype Snapshot = Snapshot(files: seq<string>, missing: MissingFiles, keyFiles: map<string, string>)

  /** The issues the checks can report, one constructor per pushed message. */
  datatype Issue =
    | MissingReadme | ShortReadme | MissingGitignore | MissingLicense | MissingContributing
    | NodeModulesCommitted | EnvFileCommitted | BuildArtifactsCommitted | NoSourceFolder | NoTests

  /** The text the source pushes for each issue. */
  function Message(i: Issue): string {
    match i
    case MissingReadme => "\U{274C} Missing README.md - No project documentation"
    case ShortReadme => "\U{26A0}\U{FE0F} README.md is too short - Needs more documentation"
    case MissingGitignore => "\U{274C} Missing .gitignore - May have unnecessary files committed"
    case MissingLicense => "\U{26A0}\U{FE0F} Missing LICENSE - Project licensing unclear"
    case MissingContributing => "\U{1F4A1} No CONTRIBUTING.md - Could help attract contributors"
    case NodeModulesCommitted => "\U{1F6A8} node_modules committed to repository!"
    case EnvFileCommitted => "\U{1F6A8} Environment files may be committed - Security risk!"
    case BuildArtifactsCommitted => "\U{26A0}\U{FE0F} Build artifacts committed to repository"
    case NoSourceFolder => "\U{1F4A1} Consider organizing code into src/ or lib/ folders"
    case NoTests => "\U{1F4A1} No tests found - Consider adding test coverage"
  }

  /** The recommended follow-up actions. */
  datatype Action = GenerateReadme | GenerateGitignore | GenerateLicense | GenerateContributing

  /** The identifier the source pushes for each action. */
  function ActionId(a: Action): string {
    match a
    case GenerateReadme => "generateReadme"
    case GenerateGitignore => "generateGitignore"
    case GenerateLicense => "generateLicense"
    case GenerateContributing => "generateContributing"
  }

  datatype Area = Documentation | Structure

  datatype Scores = Scores(overall: int, documentation: int, structure: int)

  datatype Report = Report(scores: Scores, issues: seq<Issue>, recommendations: seq<Action>, summary: string)

  // ---------------------------------------------------------------------------
  // The rule table
  // ---------------------------------------------------------------------------

  /** The checks in the order the source runs them. */
  const CheckOrder: seq<Issue> := [
    MissingReadme, ShortReadme, MissingGitignore, MissingLicense, MissingContributing,
    NodeModulesCommitted, EnvFileCommitted, BuildArtifactsCommitted, NoSourceFolder, NoTests
  ]

  /** The score each issue lowers. */
  function AreaOf(i: Issue): Area {
    match i
    case MissingReadme | ShortReadme | MissingLicense | MissingContributing => Documentation
    case _ => Structure
  }

  /** The points each issue deducts. */
  function Penalty(i: Issue): nat {
    match i
    case MissingReadme => 30
    case ShortReadme => 15
    case MissingGitignore => 20
    case MissingLicense => 10
    case MissingContributing => 5
    case NodeModulesCommitted => 30
    case EnvFileCommitted => 25
    case BuildArtifactsCommitted => 15
    case NoSourceFolder => 10
    case NoTests => 10
  }

  /** `keyFilesContent['README.md'] || keyFilesContent['readme.md'] || ''`: an empty text counts as absent. */
  function ReadmeText(keyFiles: map<string, string>): (t: string)
    ensures "README.md" in keyFiles && keyFiles["README.md"] != "" ==> t == keyFiles["README.md"]
    ensures t != "" ==> ("README.md" in keyFiles && t == keyFiles["README.md"]) ||
                        ("readme.md" in keyFiles && t == keyFiles["readme.md"])
    ensures t == "" <==> ("README.md" !in keyFiles || keyFiles["README.md"] == "") &&
                         ("readme.md" !in keyFiles || keyFiles["readme.md"] == "")
  {
    if "README.md" in keyFiles && keyFiles["README.md"] != "" then keyFiles["README.md"]
    else if "readme.md" in keyFiles && keyFiles["readme.md"] != "" then keyFiles["readme.md"]
    else ""
  }

  /** The per-path tests behind the `files.some(...)` checks. */
  datatype PathTest = Vendored | EnvFile | BuildArtifact | SourceFolder | TestFile

  predicate PathMatches(t: PathTest, f: string) {
    match t
    case Vendored => Contains(f, "node_modules/")
    case EnvFile => f == ".env" || Contains(f, ".env.local")
    case BuildArtifact => StartsWith(f, "dist/") || StartsWith(f, "build/") || StartsWith(f, ".next/")
    case SourceFolder => StartsWith(f, "src/") || StartsWith(f, "lib/") || StartsWith(f, "app/")
    case TestFile => Contains(f, "test") || Contains(f, "spec") || Contains(f, "__tests__")
  }

  /** `files.some(f => ...)` */
  predicate SomePath(files: seq<string>, t: PathTest) {
    exists f :: f in files && PathMatches(t, f)
  }

  /** When the check for issue i fires. */
  predicate Fires(i: Issue, s: Snapshot) {
    match i
    case MissingReadme => s.missing.readme
    case ShortReadme =>
      !s.missing.readme && var t := ReadmeText(s.keyFiles); t != "" && |t| < 500
    case MissingGitignore => s.missing.gitignore
    case MissingLicense => s.missing.license
    case MissingContributing => s.missing.contributing
    case NodeModulesCommitted => SomePath(s.files, Vendored)
    case EnvFileCommitted => SomePath(s.files, EnvFile)
    case BuildArtifactsCommitted => SomePath(s.files, BuildArtifact)
    case NoSourceFolder => !SomePath(s.files, SourceFolder) && |s.files| > 10
    case NoTests => !SomePath(s.files, TestFile)
  }

  /** The issues of the first k checks whose check fires, in table order. */
  function Reported(k: nat, s: Snapshot): (r: seq<Issue>)
    requires k <= |CheckOrder|
    ensures |r| <= k
  {
    if k == 0 then []
    else Reported(k - 1, s) + (if Fires(CheckOrder[k - 1], s) then [CheckOrder[k - 1]] else [])
  }

  /** The position of each issue's check in the table. */
  function Rank(i: Issue): (r: nat)
    ensures r < |CheckOrder| && CheckOrder[r] == i
  {
    match i
    case MissingReadme => 0
    case ShortReadme => 1
    case MissingGitignore => 2
    case MissingLicense => 3
    case MissingContributing => 4
    case NodeModulesCommitted => 5
    case EnvFileCommitted => 6
    case BuildArtifactsCommitted => 7
    case NoSourceFolder => 8
    case NoTests => 9
  }

  /** The table lists each issue once: the check at position j has rank j. */
  lemma RankOfCheck(j: nat)
    requires j < |CheckOrder|
    ensures Rank(CheckOrder[j]) == j
  {
  }

  /** An issue is among the first k reported exactly when its check is among the first k and fires. */
  lemma {:induction false} ReportedMembers(k: nat, s: Snapshot)
    requires k <= |CheckOrder|
    ensures forall i :: i in Reported(k, s) <==> Rank(i) < k && Fires(i, s)
  {
    if k > 0 {
      ReportedMembers(k - 1, s);
      RankOfCheck(k - 1);
    }
  }

  /** The issues are reported in table order, hence each at most once. */
  lemma {:induction false} ReportedInOrder(k: nat, s: Snapshot)
    requires k <= |CheckOrder|
    ensures forall a, b :: 0 <= a < b < |Reported(k, s)| ==> Rank(Reported(k, s)[a]) < Rank(Reported(k, s)[b])
    ensures forall a :: 0 <= a < |Reported(k, s)| ==> Rank(Reported(k, s)[a]) < k
  {
    if k > 0 {
      ReportedInOrder(k - 1, s);
      RankOfCheck(k - 1);
    }
  }

  /** The points the issues deduct from the score of `area`. */
  function DeductionTotal(issues: seq<Issue>, area: Area): nat {
    if issues == [] then 0
    else
      var last := issues[|issues| - 1];
      DeductionTotal(issues[..|issues| - 1], area) + (if AreaOf(last) == area then Penalty(last) else 0)
  }

  /** The points the fired checks among the first k deduct from the score of `area`. */
  function Deducted(k: nat, s: Snapshot, area: Area): nat
    requires k <= |CheckOrder|
  {
    if k == 0 then 0
    else
      var i := CheckOrder[k - 1];
      Deducted(k - 1, s, area) + (if Fires(i, s) && AreaOf(i) == area then Penalty(i) else 0)
  }

  /** The deduction of the fired checks is the total penalty of the issues they report. */
  lemma {:induction false} DeductedIsTotal(k: nat, s: Snapshot, area: Area)
    requires k <= |CheckOrder|
    ensures Deducted(k, s, area) == DeductionTotal(Reported(k, s), area)
  {
    if k > 0 {
      DeductedIsTotal(k - 1, s, area);
      var r := Reported(k - 1, s);
      var i := CheckOrder[k - 1];
      assert (r + [i])[..|r|] == r;
      assert r + [] == r;
    }
  }

  /** `Math.max(0, x)` */
  function Max0(x: int): nat {
    if x < 0 then 0 else x
  }

  /** `Math.round(n / 2)` for a natural n: the half is rounded up. */
  function RoundHalf(n: nat): (r: nat)
    ensures n <= 2 * r <= n + 1
  {
    (n + 1) / 2
  }

  /** The action recommended for each missing file. */
  const ActionOrder: seq<Action> := [GenerateReadme, GenerateGitignore, GenerateLicense, GenerateContributing]

  /** Each action is recommended when its file is missing. */
  predicate Recommended(a: Action, m: MissingFiles) {
    match a
    case GenerateReadme => m.readme
    case GenerateGitignore => m.gitignore
    case GenerateLicense => m.license
    case GenerateContributing => m.contributing
  }

  /** The actions of the first k missing-file checks whose file is missing, in order. */
  function Recommendations(k: nat, m: MissingFiles): (r: seq<Action>)
    requires k <= |ActionOrder|
    ensures |r| <= k
  {
    if k == 0 then []
    else
      var a := ActionOrder[k - 1];
      Recommendations(k - 1, m) + (if Recommended(a, m) then [a] else [])
  }

  /** The position of each action in the order. */
  function ActionRank(a: Action): (r: nat)
    ensures r < |ActionOrder| && ActionOrder[r] == a
  {
    match a
    case GenerateReadme => 0
    case GenerateGitignore => 1
    case GenerateLicense => 2
    case GenerateContributing => 3
  }

  /** An action is recommended exactly when its file is missing, in the fixed order, each at most once. */
  lemma {:induction false} RecommendationsMembers(k: nat, m: MissingFiles)
    requires k <= |ActionOrder|
    ensures forall a :: a in Recommendations(k, m) <==> ActionRank(a) < k && Recommended(a, m)
    ensures forall x, y :: 0 <= x < y < |Recommendations(k, m)| ==>
      ActionRank(Recommendations(k, m)[x]) < ActionRank(Recommendations(k, m)[y])
  {
    if k > 0 {
      RecommendationsMembers(k - 1, m);
      assert ActionRank(ActionOrder[k - 1]) == k - 1;
    }
  }

  /** `Repository health: ${overall}/100. Found ${n} issues.` */
  function Summary(overall: nat, issueCount: nat): string {
    "Repository health: " + NatToString(overall) + "/100. Found " + NatToString(issueCount) + " issues."
  }

  /** The reference definition of the report. */
  function Assess(s: Snapshot): (r: Report)
    ensures 0 <= r.scores.documentation <= 100 && 0 <= r.scores.structure <= 100
    ensures 2 * r.scores.overall - 1 <= r.scores.documentation + r.scores.structure <= 2 * r.scores.overall
    ensures forall i :: i in r.issues <==> Fires(i, s)
  {
    var issues := Reported(|CheckOrder|, s);
    ReportedMembers(|CheckOrder|, s);
    var documentation := Max0(100 - Deducted(|CheckOrder|, s, Documentation));
    var structure := Max0(100 - Deducted(|CheckOrder|, s, Structure));
    var overall := RoundHalf(documentation + structure);
    Report(Scores(overall, documentation, structure), issues,
           Recommendations(|ActionOrder|, s.missing),
           Summary(overall, |issues|))
  }

  // ---------------------------------------------------------------------------
  // Properties of the report
  // ---------------------------------------------------------------------------

  /** The issues come in the order the checks run, so none is reported twice. */
  lemma AssessIssuesInOrder(s: Snapshot)
    ensures var r := Assess(s).issues;
      forall a, b :: 0 <= a < b < |r| ==> Rank(r[a]) < Rank(r[b])
  {
    ReportedInOrder(|CheckOrder|, s);
  }

  /** A missing README.md and a short one exclude each other, so the first k checks report at most k - 1 issues. */
  lemma {:induction false} ReportedCount(k: nat, s: Snapshot)
    requires 2 <= k <= |CheckOrder|
    ensures |Reported(k, s)| <= k - 1
    ensures !(MissingReadme in Reported(k, s) && ShortReadme in Reported(k, s))
  {
    ReportedMembers(k, s);
    if k > 2 {
      ReportedCount(k - 1, s);
    }
  }

  /** At most nine issues are reported, never both a missing and a short README.md. */
  lemma AtMostNineIssues(s: Snapshot)
    ensures !(MissingReadme in Assess(s).issues && ShortReadme in Assess(s).issues)
    ensures |Assess(s).issues| <= 9
  {
    ReportedCount(|CheckOrder|, s);
  }

  /** Each score is 100 minus the penalties of exactly the reported issues of its area, floored at 0. */
  lemma ScoresFromIssues(s: Snapshot)
    ensures var r := Assess(s);
      r.scores.documentation == Max0(100 - DeductionTotal(r.issues, Documentation)) &&
      r.scores.structure == Max0(100 - DeductionTotal(r.issues, Structure))
  {
    var r := Assess(s);
    assert r.issues == Reported(|CheckOrder|, s);
    assert r.scores.documentation == Max0(100 - Deducted(|CheckOrder|, s, Documentation));
    assert r.scores.structure == Max0(100 - Deducted(|CheckOrder|, s, Structure));
    DeductedIsTotal(|CheckOrder|, s, Documentation);
    DeductedIsTotal(|CheckOrder|, s, Structure);
  }

  /**
   * The documentation checks deduct at most 45 points, since a missing README.md and a
   * short one exclude each other.
   */
  lemma DocumentationDeductionAtMost45(s: Snapshot)
    ensures Deducted(|CheckOrder|, s, Documentation) <= 45
  {
    assert Deducted(1, s, Documentation) == (if s.missing.readme then 30 else 0);
    assert Deducted(2, s, Documentation) <= 30;
    assert Deducted(3, s, Documentation) <= 30;
    assert Deducted(4, s, Documentation) <= 40;
    assert Deducted(5, s, Documentation) <= 45;
    assert Deducted(6, s, Documentation) <= 45;
    assert Deducted(7, s, Documentation) <= 45;
    assert Deducted(8, s, Documentation) <= 45;
    assert Deducted(9, s, Documentation) <= 45;
  }

  /** So the documentation score never drops below 55. */
  lemma DocumentationAtLeast55(s: Snapshot)
    ensures Assess(s).scores.documentation >= 55
  {
    DocumentationDeductionAtMost45(s);
  }

  /** The points the checks of `area` among the first k deduct when all of them fire. */
  function AreaPenalty(k: nat, area: Area): nat
    requires k <= |CheckOrder|
  {
    if k == 0 then 0
    else
      var i := CheckOrder[k - 1];
      AreaPenalty(k - 1, area) + (if AreaOf(i) == area then Penalty(i) else 0)
  }

  /** When every check of `area` fires, the deduction is the full penalty of the area. */
  lemma {:induction false} DeductedAllFire(k: nat, s: Snapshot, area: Area)
    requires k <= |CheckOrder|
    requires forall i :: AreaOf(i) == area ==> Fires(i, s)
    ensures Deducted(k, s, area) == AreaPenalty(k, area)
  {
    if k > 0 {
      DeductedAllFire(k - 1, s, area);
    }
  }

  /** The six structure checks together deduct 110 points. */
  lemma StructureDeductionAll(s: Snapshot)
    requires forall i :: AreaOf(i) == Structure ==> Fires(i, s)
    ensures Deducted(|CheckOrder|, s, Structure) == 110
  {
    DeductedAllFire(|CheckOrder|, s, Structure);
    assert |CheckOrder| == 10;
    assert AreaPenalty(10, Structure) == 110;
  }

  /** When every structure check fires, the structure score is floored at exactly 0. */
  lemma StructureFloorsAtZero(s: Snapshot)
    requires forall i :: AreaOf(i) == Structure ==> Fires(i, s)
    ensures Assess(s).scores.structure == 0
  {
    StructureDeductionAll(s);
  }

  /** Checks that fire alike give the same report: the report is a function of which checks fire. */
  lemma {:induction false} SameFiringSameReport(s1: Snapshot, s2: Snapshot)
    requires s1.missing == s2.missing
    requires forall i :: Fires(i, s1) == Fires(i, s2)
    ensures Assess(s1) == Assess(s2)
  {
    SameFiringSameIssues(|CheckOrder|, s1, s2);
  }

  lemma {:induction false} SameFiringSameIssues(k: nat, s1: Snapshot, s2: Snapshot)
    requires k <= |CheckOrder|
    requires forall i :: Fires(i, s1) == Fires(i, s2)
    ensures Reported(k, s1) == Reported(k, s2)
    ensures forall area :: Deducted(k, s1, area) == Deducted(k, s2, area)
  {
    if k > 0 {
      SameFiringSameIssues(k - 1, s1, s2);
    }
  }

  /** The file checks look only at which paths occur and at how many there are. */
  lemma SamePathsSameFiring(s1: Snapshot, s2: Snapshot)
    requires s1.missing == s2.missing && s1.keyFiles == s2.keyFiles
    requires forall g :: g in s1.files <==> g in s2.files
    requires |s1.files| > 10 <==> |s2.files| > 10
    ensures forall i :: Fires(i, s1) == Fires(i, s2)
  {
    assert forall t :: SomePath(s1.files, t) == SomePath(s2.files, t);
  }

  /** Listing a path again, to a list that already has more than ten, changes nothing. */
  lemma RepeatedPathChangesNothing(s: Snapshot, f: string)
    requires f in s.files && |s.files| > 10
    ensures Assess(s.(files := s.files + [f])) == Assess(s)
  {
    var s2 := s.(files := s.files + [f]);
    SamePathsSameFiring(s2, s);
    SameFiringSameReport(s2, s);
  }

  /**
   * "__tests__" contains "test", so the test check fires exactly when no path contains
   * "test" or "spec".
   */
  lemma NoTestsIff(s: Snapshot)
    ensures NoTests in Assess(s).issues <==>
      forall f :: f in s.files ==> !Contains(f, "test") && !Contains(f, "spec")
  {
    forall f | f in s.files && Contains(f, "__tests__") ensures Contains(f, "test") {
      TestsDirectoryContainsTest();
      ContainsTransitive(f, "__tests__", "test");
    }
  }

  lemma TestsDirectoryContainsTest()
    ensures Contains("__tests__", "test")
  {
    assert OccursAt("__tests__", "test", 2);
    ContainsOccurs("__tests__", "test");
  }

  /**
   * An empty file list reports missing tests and none of the other file checks: no
   * committed artefacts, and no missing source folder, which needs more than ten files.
   */
  lemma EmptyFileList(s: Snapshot)
    requires s.files == []
    ensures NoTests in Assess(s).issues
    ensures NoSourceFolder !in Assess(s).issues
    ensures NodeModulesCommitted !in Assess(s).issues && EnvFileCommitted !in Assess(s).issues
    ensures BuildArtifactsCommitted !in Assess(s).issues
  {
  }

  /** The source-folder check needs more than ten files and no path under src/, lib/ or app/. */
  lemma NoSourceFolderIff(s: Snapshot)
    ensures NoSourceFolder in Assess(s).issues <==>
      |s.files| > 10 && forall f :: f in s.files ==> !StartsWith(f, "src/") && !StartsWith(f, "lib/") && !StartsWith(f, "app/")
  {
  }

  /** The short-README check reads README.md, falling back to readme.md, and an empty text counts as absent. */
  lemma ShortReadmeIff(s: Snapshot)
    ensures ShortReadme in Assess(s).issues <==>
      !s.missing.readme &&
      (if "README.md" in s.keyFiles && s.keyFiles["README.md"] != "" then 0 < |s.keyFiles["README.md"]| < 500
       else "readme.md" in s.keyFiles && 0 < |s.keyFiles["readme.md"]| < 500)
  {
  }

  /** One action per missing file, in the order readme, gitignore, license, contributing. */
  lemma AssessRecommendations(s: Snapshot)
    ensures var r := Assess(s).recommendations;
      (forall a :: a in r <==> Recommended(a, s.missing)) &&
      (forall x, y :: 0 <= x < y < |r| ==> ActionRank(r[x]) < ActionRank(r[y]))
  {
    RecommendationsMembers(|ActionOrder|, s.missing);
  }

  /**
   * After the first k checks: the pushed issues are those of the first k rows that fired,
   * and each running score is 100 minus the penalties of its issues so far.
   */
  ghost predicate Progress(k: nat, s: Snapshot, issues: seq<Issue>, documentation: int, structure: int)
    requires k <= |CheckOrder|
  {
    && issues == Reported(k, s)
    && documentation == 100 - Deducted(k, s, Documentation)
    && structure == 100 - Deducted(k, s, Structure)
  }

  /**
   * Running check k, the one for issue i, keeps `Progress`: it pushes i and deducts its
   * penalty from its score exactly when it fires.
   */
  lemma ProgressStep(k: nat, i: Issue, fires: bool, s: Snapshot, issues: seq<Issue>, documentation: int, structure: int)
    requires 0 < k <= |CheckOrder| && i == CheckOrder[k - 1] && fires == Fires(i, s)
    requires Progress(k - 1, s, issues, documentation, structure)
    ensures Progress(k, s, if fires then issues + [i] else issues,
                     if fires && AreaOf(i) == Documentation then documentation - Penalty(i) else documentation,
                     if fires && AreaOf(i) == Structure then structure - Penalty(i) else structure)
  {
    assert issues + [] == issues;
  }

  // ---------------------------------------------------------------------------
  // The source's computation
  // ---------------------------------------------------------------------------

  /** The README.md part of the "Check missing files" block: missing, or present but short. */
  method CheckReadme(ghost s: Snapshot, missingFiles: MissingFiles, keyFilesContent: map<string, string>)
    returns (issues: seq<Issue>, documentationScore: int)
    requires s.missing == missingFiles && s.keyFiles == keyFilesContent
    ensures Progress(2, s, issues, documentationScore, 100)
  {
    issues, documentationScore := [], 100;
    ProgressStep(1, MissingReadme, missingFiles.readme, s, issues, documentationScore, 100);
    if missingFiles.readme {
      issues := issues + [MissingReadme];
      documentationScore := documentationScore - 30;
      ProgressStep(2, ShortReadme, false, s, issues, documentationScore, 100);
    } else {
      var readmeContent := ReadmeText(keyFilesContent);
      ProgressStep(2, ShortReadme, readmeContent != "" && |readmeContent| < 500, s, issues, documentationScore, 100);
      if readmeContent != "" && |readmeContent| < 500 {
        issues := issues + [ShortReadme];
        documentationScore := documentationScore - 15;
      }
    }
  }

  /** The rest of the "Check missing files" block: .gitignore, LICENSE and CONTRIBUTING.md. */
  method CheckMissingFiles(ghost s: Snapshot, missingFiles: MissingFiles, issues0: seq<Issue>,
                           documentationScore0: int, structureScore0: int)
    returns (issues: seq<Issue>, documentationScore: int, structureScore: int)
    requires s.missing == missingFiles && Progress(2, s, issues0, documentationScore0, structureScore0)
    ensures Progress(5, s, issues, documentationScore, structureScore)
  {
    issues, documentationScore, structureScore := issues0, documentationScore0, structureScore0;
    ProgressStep(3, MissingGitignore, missingFiles.gitignore, s, issues, documentationScore, structureScore);
    if missingFiles.gitignore {
      issues := issues + [MissingGitignore];
      structureScore := structureScore - 20;
    }

    assert Progress(3, s, issues, documentationScore, structureScore);
    ProgressStep(4, MissingLicense, missingFiles.license, s, issues, documentationScore, structureScore);
    if missingFiles.license {
      issues := issues + [MissingLicense];
      documentationScore := documentationScore - 10;
    }

    assert Progress(4, s, issues, documentationScore, structureScore);
    ProgressStep(5, MissingContributing, missingFiles.contributing, s, issues, documentationScore, structureScore);
    if missingFiles.contributing {
      issues := issues + [MissingContributing];
      documentationScore := documentationScore - 5;
    }
  }

  /** The "Check for common issues" block: committed node_modules, .env files and build output. */
  method CheckCommonIssues(ghost s: Snapshot, files: seq<string>, issues0: seq<Issue>, documentationScore: int,
                           structureScore0: int)
    returns (issues: seq<Issue>, structureScore: int)
    requires s.files == files && Progress(5, s, issues0, documentationScore, structureScore0)
    ensures Progress(8, s, issues, documentationScore, structureScore)
  {
    issues, structureScore := issues0, structureScore0;
    var hasNodeModules := SomePath(files, Vendored);
    assert Fires(NodeModulesCommitted, s) == hasNodeModules;
    ProgressStep(6, NodeModulesCommitted, hasNodeModules, s, issues, documentationScore, structureScore);
    if hasNodeModules {
      issues := issues + [NodeModulesCommitted];
      structureScore := structureScore - 30;
    }

    var hasEnvFile := SomePath(files, EnvFile);
    assert Progress(6, s, issues, documentationScore, structureScore);
    ProgressStep(7, EnvFileCommitted, hasEnvFile, s, issues, documentationScore, structureScore);
    if hasEnvFile {
      issues := issues + [EnvFileCommitted];
      structureScore := structureScore - 25;
    }

    var hasBuildDir := SomePath(files, BuildArtifact);
    assert Progress(7, s, issues, documentationScore, structureScore);
    ProgressStep(8, BuildArtifactsCommitted, hasBuildDir, s, issues, documentationScore, structureScore);
    if hasBuildDir {
      issues := issues + [BuildArtifactsCommitted];
      structureScore := structureScore - 15;
    }
  }

  /** The "Check folder structure" and "Check for tests" blocks. */
  method CheckLayout(ghost s: Snapshot, files: seq<string>, issues0: seq<Issue>, documentationScore: int,
                     structureScore0: int)
    returns (issues: seq<Issue>, structureScore: int)
    requires s.files == files && Progress(8, s, issues0, documentationScore, structureScore0)
    ensures Progress(10, s, issues, documentationScore, structureScore)
  {
    issues, structureScore := issues0, structureScore0;
    var hasSourceFolder := SomePath(files, SourceFolder);
    ProgressStep(9, NoSourceFolder, !hasSourceFolder && |files| > 10, s, issues, documentationScore, structureScore);
    if !hasSourceFolder && |files| > 10 {
      issues := issues + [NoSourceFolder];
      structureScore := structureScore - 10;
    }

    var hasTests := SomePath(files, TestFile);
    assert Progress(9, s, issues, documentationScore, structureScore);
    ProgressStep(10, NoTests, !hasTests, s, issues, documentationScore, structureScore);
    if !hasTests {
      issues := issues + [NoTests];
      structureScore := structureScore - 10;
    }
  }

  /** The "Generate recommendations" block: one action per missing file, in a fixed order. */
  method GenerateRecommendations(missingFiles: MissingFiles) returns (recommendations: seq<Action>)
    ensures recommendations == Recommendations(|ActionOrder|, missingFiles)
  {
    recommendations := [];
    if missingFiles.readme { recommendations := recommendations + [GenerateReadme]; }
    assert recommendations == Recommendations(1, missingFiles);
    if missingFiles.gitignore { recommendations := recommendations + [GenerateGitignore]; }
    assert recommendations == Recommendations(2, missingFiles);
    if missingFiles.license { recommendations := recommendations + [GenerateLicense]; }
    assert recommendations == Recommendations(3, missingFiles);
    if missingFiles.contributing { recommendations := recommendations + [GenerateContributing]; }
  }

  /**
   * `analyzeStructureExecute`: the two scores start at 100 and each check that fires
   * pushes its issue and lowers its score; both scores are then floored at 0 and
   * averaged, and one action is recommended per missing file. The metadata parameter
   * is accepted and never read: the report is `Assess` of the rest.
   */
  method AnalyzeStructureExecute(files: seq<string>, metadata: Metadata, missingFiles: MissingFiles,
                                 keyFilesContent: map<string, string>)
    returns (report: Report)
    ensures report == Assess(Snapshot(files, missingFiles, keyFilesContent))
  {
    ghost var s := Snapshot(files, missingFiles, keyFilesContent);
    var issues, documentationScore := CheckReadme(s, missingFiles, keyFilesContent);
    var structureScore: int;
    issues, documentationScore, structureScore := CheckMissingFiles(s, missingFiles, issues, documentationScore, 100);
    issues, structureScore := CheckCommonIssues(s, files, issues, documentationScore, structureScore);
    issues, structureScore := CheckLayout(s, files, issues, documentationScore, structureScore);

    // Calculate overall score
    documentationScore := Max0(documentationScore);
    structureScore := Max0(structureScore);
    var overallScore := RoundHalf(documentationScore + structureScore);

    var recommendations := GenerateRecommendations(missingFiles);

    report := Report(Scores(overallScore, documentationScore, structureScore), issues, recommendations,
                     Summary(overallScore, |issues|));
  }
}
