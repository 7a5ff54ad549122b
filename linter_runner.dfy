/**
 * The change-aware part of the linter runner: keeping only the issues that a
 * baseline run did not already report, counting the remaining issues by
 * severity, the pass/fail rule, and the flake8 code-to-severity map.
 *
 * Running the linters themselves (subprocesses and their output parsing) is
 * not modelled: the issues they report are an input.
 */
module LinterRunner {
  import opened Wrappers
  import Strings

  datatype IssueSeverity = Error | Warning | Info | Style

  datatype LintIssue = LintIssue(
    filePath: string,
    lineNumber: int,
    column: Option<int>,
    severity: IssueSeverity,
    rule: string,
    message: string,
    linter: string)

  /** The `file:line:rule` text an issue is compared by. */
  function Signature(issue: LintIssue): string
  {
    issue.filePath + ":" + Strings.IntToString(issue.lineNumber) + ":" + issue.rule
  }

  // ------------------------------------------------------------ new issues
  //
  // The filtering lemmas are stated for any signature function `sig`; the
  // runner uses `Signature`.

  /** The signatures of the first `n` baseline issues. */
  function SignaturesBelow(baseline: seq<LintIssue>, n: nat, sig: LintIssue -> string): (sigs: set<string>)
    requires n <= |baseline|
    ensures forall k :: 0 <= k < n ==> sig(baseline[k]) in sigs
  {
    if n == 0 then {} else SignaturesBelow(baseline, n - 1, sig) + {sig(baseline[n - 1])}
  }

  /** Each collected signature is the signature of some baseline issue. */
  lemma {:induction false} SignaturesBelowOnly(baseline: seq<LintIssue>, n: nat, sig: LintIssue -> string, s: string)
    requires n <= |baseline| && s in SignaturesBelow(baseline, n, sig)
    ensures exists k :: 0 <= k < n && sig(baseline[k]) == s
  {
    if sig(baseline[n - 1]) != s {
      SignaturesBelowOnly(baseline, n - 1, sig, s);
    }
  }

  function BaselineSignatures(baseline: seq<LintIssue>, sig: LintIssue -> string): set<string>
  {
    SignaturesBelow(baseline, |baseline|, sig)
  }

  /** The issues of `current`, in order, whose signature is not in `sigs`. */
  function Unseen(current: seq<LintIssue>, sigs: set<string>, sig: LintIssue -> string): seq<LintIssue>
  {
    if current == [] then []
    else Unseen(current[..|current| - 1], sigs, sig)
         + (if sig(current[|current| - 1]) in sigs then [] else [current[|current| - 1]])
  }

  /** An issue survives exactly when it is current and its signature is not among `sigs`. */
  lemma {:induction false} UnseenMembers(current: seq<LintIssue>, sigs: set<string>, sig: LintIssue -> string, x: LintIssue)
    ensures x in Unseen(current, sigs, sig) <==> x in current && sig(x) !in sigs
  {
    if current != [] {
      var init := current[..|current| - 1];
      UnseenMembers(init, sigs, sig, x);
      assert current == init + [current[|current| - 1]];
    }
  }

  /** Filtering a concatenation filters each part: the surviving issues keep their order. */
  lemma {:induction false} UnseenConcat(a: seq<LintIssue>, b: seq<LintIssue>, sigs: set<string>, sig: LintIssue -> string)
    ensures Unseen(a + b, sigs, sig) == Unseen(a, sigs, sig) + Unseen(b, sigs, sig)
  {
    if b == [] {
      assert a + b == a;
    } else {
      var init := b[..|b| - 1];
      UnseenConcat(a, init, sigs, sig);
      assert (a + b)[..|a + b| - 1] == a + init;
      assert (a + b)[|a + b| - 1] == b[|b| - 1];
    }
  }

  /** Filtering never adds issues. */
  lemma {:induction false} UnseenShrinks(current: seq<LintIssue>, sigs: set<string>, sig: LintIssue -> string)
    ensures |Unseen(current, sigs, sig)| <= |current|
  {
    if current != [] {
      UnseenShrinks(current[..|current| - 1], sigs, sig);
    }
  }

  /** Filtering a second time against the same baseline changes nothing. */
  lemma {:induction false} UnseenIdempotent(current: seq<LintIssue>, sigs: set<string>, sig: LintIssue -> string)
    ensures Unseen(Unseen(current, sigs, sig), sigs, sig) == Unseen(current, sigs, sig)
  {
    if current != [] {
      var init := current[..|current| - 1];
      var last := current[|current| - 1];
      var tail := if sig(last) in sigs then [] else [last];
      UnseenIdempotent(init, sigs, sig);
      UnseenConcat(Unseen(init, sigs, sig), tail, sigs, sig);
      if tail != [] {
        assert tail[..0] == [];
      }
    }
  }

  /** With no baseline signatures every issue is new. */
  lemma {:induction false} UnseenNothingKnown(current: seq<LintIssue>, sig: LintIssue -> string)
    ensures Unseen(current, {}, sig) == current
  {
    if current != [] {
      UnseenNothingKnown(current[..|current| - 1], sig);
    }
  }

  /** `_filter_new_issues`. */
  method FilterNewIssues(current: seq<LintIssue>, baseline: seq<LintIssue>) returns (newIssues: seq<LintIssue>)
    ensures newIssues == Unseen(current, BaselineSignatures(baseline, Signature), Signature)
  {
    var baselineSigs := CollectSignatures(baseline, Signature);
    newIssues := KeepUnseen(current, baselineSigs, Signature);
  }

  /** The set comprehension over the baseline issues' signatures. */
  method CollectSignatures(baseline: seq<LintIssue>, sig: LintIssue -> string) returns (sigs: set<string>)
    ensures sigs == BaselineSignatures(baseline, sig)
  {
    sigs := {};
    var i := 0;
    while i < |baseline|
      invariant 0 <= i <= |baseline|
      invariant sigs == SignaturesBelow(baseline, i, sig)
    {
      sigs := sigs + {sig(baseline[i])};
      i := i + 1;
    }
  }

  /** The list comprehension keeping the current issues whose signature is not in `sigs`. */
  method KeepUnseen(current: seq<LintIssue>, sigs: set<string>, sig: LintIssue -> string) returns (kept: seq<LintIssue>)
    ensures kept == Unseen(current, sigs, sig)
  {
    kept := [];
    var j := 0;
    while j < |current|
      invariant 0 <= j <= |current|
      invariant kept == Unseen(current[..j], sigs, sig)
    {
      assert current[..j + 1][..j] == current[..j];
      if sig(current[j]) !in sigs {
        kept := kept + [current[j]];
      }
      j := j + 1;
    }
    assert current[..j] == current;
  }

  /** A current issue with the file, line and rule of a baseline issue is dropped. */
  lemma KnownIssueDropped(current: seq<LintIssue>, baseline: seq<LintIssue>, x: LintIssue, b: LintIssue)
    requires b in baseline
    requires x.filePath == b.filePath && x.lineNumber == b.lineNumber && x.rule == b.rule
    ensures x !in Unseen(current, BaselineSignatures(baseline, Signature), Signature)
  {
    UnseenMembers(current, BaselineSignatures(baseline, Signature), Signature, x);
    var k :| 0 <= k < |baseline| && baseline[k] == b;
    assert Signature(x) == Signature(b);
  }

  /**
   * Issues are compared by their joined text, so a path holding ':' can make
   * two different locations look alike: "a:1" line 2 rule "E1" and "a" line 1
   * rule "2:E1" share the signature "a:1:2:E1".
   */
  lemma SignaturesCanCollide()
    ensures var x := LintIssue("a:1", 2, None, Error, "E1", "", "flake8");
            var y := LintIssue("a", 1, None, Error, "2:E1", "", "flake8");
            x.filePath != y.filePath && Signature(x) == Signature(y)
  {
    var x := LintIssue("a:1", 2, None, Error, "E1", "", "flake8");
    var y := LintIssue("a", 1, None, Error, "2:E1", "", "flake8");
    assert Strings.IntToString(2) == "2";
    assert Strings.IntToString(1) == "1";
    assert x.filePath[1] != y.filePath[0] || |x.filePath| != |y.filePath|;
  }

  // -------------------------------------------------------------- counting

  function CountSeverity(issues: seq<LintIssue>, s: IssueSeverity): (n: nat)
    ensures n <= |issues|
  {
    if issues == [] then 0
    else CountSeverity(issues[..|issues| - 1], s) + (if issues[|issues| - 1].severity == s then 1 else 0)
  }

  /** The error, warning and info counts never exceed the total; STYLE issues fall in none of them. */
  lemma {:induction false} CountsWithinTotal(issues: seq<LintIssue>)
    ensures CountSeverity(issues, Error) + CountSeverity(issues, Warning) + CountSeverity(issues, Info) <= |issues|
    ensures CountSeverity(issues, Error) + CountSeverity(issues, Warning) + CountSeverity(issues, Info)
              + CountSeverity(issues, Style) == |issues|
  {
    if issues != [] {
      CountsWithinTotal(issues[..|issues| - 1]);
    }
  }

  datatype LinterConfig = LinterConfig(maxErrors: int, maxWarnings: int, failOnError: bool)

  /** The limits used when the configuration gives none. */
  function DefaultLinterConfig(): LinterConfig
  {
    LinterConfig(0, 50, true)
  }

  /** The pass rule of `run_linter`. */
  function Passes(config: LinterConfig, errors: nat, warnings: nat): (passed: bool)
    ensures !passed <==> (config.failOnError && errors > config.maxErrors) || warnings > config.maxWarnings
  {
    !(config.failOnError && errors > config.maxErrors) && warnings <= config.maxWarnings
  }

  /** With the default limits a run passes exactly when it has no error and at most 50 warnings. */
  lemma DefaultPassRule(errors: nat, warnings: nat)
    ensures Passes(DefaultLinterConfig(), errors, warnings) <==> errors == 0 && warnings <= 50
  {
  }

  datatype LintResult = LintResult(
    passed: bool,
    linter: string,
    filesChecked: nat,
    totalIssues: nat,
    errors: nat,
    warnings: nat,
    info: nat,
    issues: seq<LintIssue>,
    changedFilesOnly: bool,
    newIssuesOnly: bool)

  predicate SupportedLanguage(language: string)
  {
    language == "python" || language == "java" || language == "javascript" || language == "typescript"
  }

  /** The issues `run_linter` reports: the linter's, less those the baseline knows when there is a baseline. */
  function Reported(language: string, linterIssues: seq<LintIssue>, baseline: Option<seq<LintIssue>>): seq<LintIssue>
  {
    var issues := if SupportedLanguage(language) then linterIssues else [];
    if baseline.Some? && baseline.value != [] then Unseen(issues, BaselineSignatures(baseline.value, Signature), Signature) else issues
  }

  /**
   * `run_linter` after the linter has produced `linterIssues` (the linter name
   * and the changed-file list as given): filtering, counting and the verdict.
   */
  method RunLinter(config: LinterConfig, language: string, linter: string, changedFiles: Option<seq<string>>,
                   baseline: Option<seq<LintIssue>>, linterIssues: seq<LintIssue>)
    returns (result: LintResult)
    ensures result.issues == Reported(language, linterIssues, baseline)
    ensures result.linter == linter
    ensures result.newIssuesOnly <==> baseline.Some? && baseline.value != []
    ensures result.changedFilesOnly <==> changedFiles.Some? && changedFiles.value != []
    ensures result.filesChecked == if result.changedFilesOnly then |changedFiles.value| else 0
    ensures result.totalIssues == |result.issues|
    ensures result.errors == CountSeverity(result.issues, Error)
    ensures result.warnings == CountSeverity(result.issues, Warning)
    ensures result.info == CountSeverity(result.issues, Info)
    ensures result.passed == Passes(config, result.errors, result.warnings)
  {
    var changedFilesOnly := changedFiles.Some? && changedFiles.value != [];
    var filesChecked := if changedFilesOnly then |changedFiles.value| else 0;
    var issues := if SupportedLanguage(language) then linterIssues else [];
    var newIssuesOnly := false;
    if baseline.Some? && baseline.value != [] {
      issues := FilterNewIssues(issues, baseline.value);
      newIssuesOnly := true;
    }
    var errors := CountSeverity(issues, Error);
    var warnings := CountSeverity(issues, Warning);
    var info := CountSeverity(issues, Info);
    var passed := true;
    if config.failOnError && errors > config.maxErrors {
      passed := false;
    }
    if warnings > config.maxWarnings {
      passed := false;
    }
    result := LintResult(passed, linter, filesChecked, |issues|, errors, warnings, info, issues, changedFilesOnly, newIssuesOnly);
  }

  /** An empty baseline list filters nothing. */
  lemma EmptyBaselineKeepsAll(language: string, linterIssues: seq<LintIssue>)
    requires SupportedLanguage(language)
    ensures Reported(language, linterIssues, Some([])) == linterIssues
    ensures Reported(language, linterIssues, None) == linterIssues
  {
  }

  /** A baseline that is the current run itself leaves no new issue. */
  lemma SameRunHasNoNewIssues(language: string, issues: seq<LintIssue>)
    requires SupportedLanguage(language) && issues != []
    ensures Reported(language, issues, Some(issues)) == []
  {
    var sigs := BaselineSignatures(issues, Signature);
    var r := Unseen(issues, sigs, Signature);
    if r != [] {
      UnseenMembers(issues, sigs, Signature, r[0]);
    }
  }

  // -------------------------------------------------------------- flake8

  /** The severity the flake8 parser gives a code, by its first letter. */
  function Flake8Severity(code: string): (s: IssueSeverity)
    requires code != []
    ensures code[0] == 'E' || code[0] == 'F' ==> s == Error
    ensures code[0] == 'C' || code[0] == 'N' ==> s == Info
    ensures code[0] !in "EFCN" ==> s == Warning
    ensures s != Style
  {
    var severity := Warning;
    if code[0] in ['E', 'F'] then Error
    else if code[0] in ['W'] then Warning
    else if code[0] in ['C', 'N'] then Info
    else severity
  }
}
