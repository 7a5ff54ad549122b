/**
 * The decision logic of the patch validator: the file-size and
 * changed-line-count checks, the language-specific checks, the dangerous-
 * pattern issues, the bracket balance check used for Java and JavaScript,
 * and the level-dependent verdict over the collected issues.
 *
 * Python's `ast` (syntax errors, imports, function signatures) and the
 * regular-expression searches (Java public methods, dangerous patterns) are
 * not modelled; their results arrive as an `Analysis` value.
 */
module PatchValidator {
  import opened Wrappers
  import Strings

  datatype ValidationLevel = Strict | Normal | Permissive

  datatype ValidationResult = Pass | Fail | Warning

  /** The `check` field of an issue; `Name` is the text the source uses. */
  datatype Check =
    | FileSize | LinesChangedCheck | LanguageSupport | DangerousPattern
    | Syntax | ImportsRemoved | ImportsAdded | SignatureChanged | MethodRemoved | ConsoleLogRemoved
  {
    function Name(): string
    {
      match this
      case FileSize => "file_size"
      case LinesChangedCheck => "lines_changed"
      case LanguageSupport => "language_support"
      case DangerousPattern => "dangerous_pattern"
      case Syntax => "syntax"
      case ImportsRemoved => "imports_removed"
      case ImportsAdded => "imports_added"
      case SignatureChanged => "signature_changed"
      case MethodRemoved => "method_removed"
      case ConsoleLogRemoved => "console_log_removed"
    }
  }

  datatype ValidationIssue = ValidationIssue(level: ValidationResult, check: Check, message: string, lineNumber: Option<int>)

  datatype Config = Config(validationLevel: ValidationLevel, maxFileSize: int, maxLinesChanged: int)

  /** The thresholds used when the configuration gives none. */
  function DefaultConfig(level: ValidationLevel): Config
  {
    Config(level, 1024 * 1024, 500)
  }

  // ---------------------------------------------------------------- brackets

  predicate IsOpener(c: char)
  {
    c == '(' || c == '[' || c == '{'
  }

  predicate IsCloser(c: char)
  {
    c == ')' || c == ']' || c == '}'
  }

  /** The `pairs` table. */
  function Partner(o: char): (c: char)
    requires IsOpener(o)
    ensures IsCloser(c)
  {
    if o == '(' then ')' else if o == '[' then ']' else '}'
  }

  /**
   * Scans `s` with `stack` of still-open openers: an opener is pushed, a
   * closer must match the top opener, which is popped, and every other
   * character is skipped. None when a closer finds no matching opener.
   */
  function Scan(s: string, stack: seq<char>): Option<seq<char>>
  {
    if s == [] then Some(stack)
    else if IsOpener(s[0]) then Scan(s[1..], stack + [s[0]])
    else if IsCloser(s[0]) then
      if stack == [] || !IsOpener(stack[|stack| - 1]) || Partner(stack[|stack| - 1]) != s[0] then None
      else Scan(s[1..], stack[..|stack| - 1])
    else Scan(s[1..], stack)
  }

  /** Every closer matches the most recent open opener and none is left open. */
  predicate Balanced(s: string)
  {
    Scan(s, []) == Some([])
  }

  /** Scanning a concatenation scans the second part from wherever the first part left the stack. */
  lemma {:induction false} ScanConcat(a: string, b: string, stack: seq<char>)
    ensures Scan(a + b, stack) == match Scan(a, stack) case None => None case Some(st) => Scan(b, st)
  {
    if a != [] {
      assert (a + b)[0] == a[0] && (a + b)[1..] == a[1..] + b;
      if IsOpener(a[0]) {
        ScanConcat(a[1..], b, stack + [a[0]]);
      } else if IsCloser(a[0]) {
        if !(stack == [] || !IsOpener(stack[|stack| - 1]) || Partner(stack[|stack| - 1]) != a[0]) {
          ScanConcat(a[1..], b, stack[..|stack| - 1]);
        }
      } else {
        ScanConcat(a[1..], b, stack);
      }
    } else {
      assert a + b == b;
    }
  }

  /** Openers lying below the part of the stack a text touches stay untouched. */
  lemma {:induction false} ScanUnderStack(s: string, stack: seq<char>, below: seq<char>, result: seq<char>)
    requires Scan(s, stack) == Some(result)
    ensures Scan(s, below + stack) == Some(below + result)
  {
    if s != [] {
      if IsOpener(s[0]) {
        assert below + stack + [s[0]] == below + (stack + [s[0]]);
        ScanUnderStack(s[1..], stack + [s[0]], below, result);
      } else if IsCloser(s[0]) {
        var st := below + stack;
        assert st[|st| - 1] == stack[|stack| - 1];
        assert st[..|st| - 1] == below + stack[..|stack| - 1];
        ScanUnderStack(s[1..], stack[..|stack| - 1], below, result);
      } else {
        ScanUnderStack(s[1..], stack, below, result);
      }
    }
  }

  /** Two balanced texts in a row are balanced. */
  lemma BalancedConcat(a: string, b: string)
    requires Balanced(a) && Balanced(b)
    ensures Balanced(a + b)
  {
    ScanConcat(a, b, []);
  }

  /** A balanced text between an opener and its partner is balanced. */
  lemma BalancedWrap(o: char, s: string)
    requires IsOpener(o) && Balanced(s)
    ensures Balanced([o] + s + [Partner(o)])
  {
    var w := [o] + s + [Partner(o)];
    assert w[0] == o && w[1..] == s + [Partner(o)];
    assert Scan(w, []) == Scan(s + [Partner(o)], [o]);
    ScanConcat(s, [Partner(o)], [o]);
    ScanUnderStack(s, [], [o], []);
    assert [o] + [] == [o];
    assert [Partner(o)][1..] == [];
  }

  /** The bracket characters of `s`, in order. */
  function Brackets(s: string): (r: string)
    ensures forall c :: c in r ==> IsOpener(c) || IsCloser(c)
  {
    if s == [] then []
    else (if IsOpener(s[0]) || IsCloser(s[0]) then [s[0]] else []) + Brackets(s[1..])
  }

  /** Characters other than brackets play no part in the verdict. */
  lemma {:induction false} OnlyBracketsMatter(s: string, stack: seq<char>)
    ensures Scan(s, stack) == Scan(Brackets(s), stack)
  {
    if s != [] {
      if IsOpener(s[0]) || IsCloser(s[0]) {
        var r := [s[0]] + Brackets(s[1..]);
        assert r[0] == s[0] && r[1..] == Brackets(s[1..]);
        OnlyBracketsMatter(s[1..], if IsOpener(s[0]) then stack + [s[0]] else if stack == [] then stack else stack[..|stack| - 1]);
      } else {
        assert Brackets(s) == Brackets(s[1..]);
        OnlyBracketsMatter(s[1..], stack);
      }
    }
  }

  /** An unmatched closer is never balanced, whatever follows it. */
  lemma LeadingCloserUnbalanced(c: char, rest: string)
    requires IsCloser(c)
    ensures !Balanced([c] + rest)
  {
    assert ([c] + rest)[0] == c;
  }

  /** `_check_balanced_braces`. */
  method CheckBalancedBraces(code: string) returns (balanced: bool)
    ensures balanced == Balanced(code)
  {
    var stack: seq<char> := [];
    var i := 0;
    while i < |code|
      invariant 0 <= i <= |code|
      invariant forall k :: 0 <= k < |stack| ==> IsOpener(stack[k])
      invariant Scan(code, []) == Scan(code[i..], stack)
    {
      var c := code[i];
      assert code[i..][0] == c && code[i..][1..] == code[i + 1..];
      if IsOpener(c) {
        stack := stack + [c];
      } else if IsCloser(c) {
        if stack == [] {
          return false;
        }
        if Partner(stack[|stack| - 1]) != c {
          return false;
        }
        stack := stack[..|stack| - 1];
      }
      i := i + 1;
    }
    assert code[i..] == [];
    return |stack| == 0;
  }

  // ------------------------------------------------------------------ verdict

  /** Whether an issue makes a patch invalid at the given level. */
  predicate Blocks(level: ValidationLevel, issue: ValidationIssue)
  {
    match level
    case Permissive => issue.level == Fail && issue.check == Syntax
    case Normal => issue.level == Fail
    case Strict => issue.level == Fail || issue.level == Warning
  }

  /** Whether one of the first `n` issues blocks. */
  function AnyBlockingBelow(level: ValidationLevel, issues: seq<ValidationIssue>, n: nat): bool
    requires n <= |issues|
  {
    if n == 0 then false else AnyBlockingBelow(level, issues, n - 1) || Blocks(level, issues[n - 1])
  }

  lemma {:induction false} AnyBlockingIff(level: ValidationLevel, issues: seq<ValidationIssue>, n: nat)
    requires n <= |issues|
    ensures AnyBlockingBelow(level, issues, n) <==> exists k :: 0 <= k < n && Blocks(level, issues[k])
  {
    if n > 0 {
      AnyBlockingIff(level, issues, n - 1);
    }
  }

  /** `_evaluate_issues`. */
  function EvaluateIssues(level: ValidationLevel, issues: seq<ValidationIssue>): bool
  {
    !AnyBlockingBelow(level, issues, |issues|)
  }

  /**
   * PERMISSIVE rejects only a failed syntax check, NORMAL any failure, and
   * STRICT any failure or warning.
   */
  lemma EvaluateIssuesMeaning(level: ValidationLevel, issues: seq<ValidationIssue>)
    ensures level == Permissive ==>
      (EvaluateIssues(level, issues) <==> !exists k :: 0 <= k < |issues| && issues[k].level == Fail && issues[k].check == Syntax)
    ensures level == Normal ==>
      (EvaluateIssues(level, issues) <==> !exists k :: 0 <= k < |issues| && issues[k].level == Fail)
    ensures level == Strict ==>
      (EvaluateIssues(level, issues) <==> !exists k :: 0 <= k < |issues| && (issues[k].level == Fail || issues[k].level == Warning))
  {
    AnyBlockingIff(level, issues, |issues|);
  }

  /** A patch valid at a stricter level is valid at every laxer one. */
  lemma LevelsNest(issues: seq<ValidationIssue>)
    ensures EvaluateIssues(Strict, issues) ==> EvaluateIssues(Normal, issues)
    ensures EvaluateIssues(Normal, issues) ==> EvaluateIssues(Permissive, issues)
  {
    EvaluateIssuesMeaning(Strict, issues);
    EvaluateIssuesMeaning(Normal, issues);
    EvaluateIssuesMeaning(Permissive, issues);
  }

  // -------------------------------------------------------------- line counts

  /** The characters `str.splitlines` breaks lines at. */
  predicate IsLineBreak(c: char)
  {
    c == '\n' || c == '\r' || c as int == 0x0B || c as int == 0x0C || c as int == 0x1C || c as int == 0x1D
    || c as int == 0x1E || c as int == 0x85 || c as int == 0x2028 || c as int == 0x2029
  }

  /** Number of line boundaries, "\r\n" counting once. */
  function Breaks(s: string): nat
  {
    if s == [] then 0
    else if s[0] == '\r' && |s| >= 2 && s[1] == '\n' then 1 + Breaks(s[2..])
    else (if IsLineBreak(s[0]) then 1 else 0) + Breaks(s[1..])
  }

  /** `len(s.splitlines())`: each boundary ends a line, and trailing text without one is a line too. */
  function LineCount(s: string): nat
  {
    Breaks(s) + (if s != [] && !IsLineBreak(s[|s| - 1]) then 1 else 0)
  }

  /** Boundaries add up over a split that does not fall inside "\r\n". */
  lemma {:induction false} BreaksConcat(a: string, b: string)
    requires a == [] || a[|a| - 1] != '\r'
    ensures Breaks(a + b) == Breaks(a) + Breaks(b)
  {
    if a == [] {
      assert a + b == b;
    } else {
      var ab := a + b;
      assert ab[0] == a[0];
      if a[0] == '\r' && |a| >= 2 && a[1] == '\n' {
        assert ab[1] == '\n' && ab[2..] == a[2..] + b;
        BreaksConcat(a[2..], b);
      } else {
        assert ab[1..] == a[1..] + b;
        if a[0] == '\r' {
          assert |a| >= 2;
          assert ab[1] == a[1];
        }
        BreaksConcat(a[1..], b);
      }
    }
  }

  /** One more terminated line after complete lines adds exactly one to the count. */
  lemma AppendLine(s: string, line: string)
    requires s == [] || s[|s| - 1] == '\n'
    requires forall k :: 0 <= k < |line| ==> !IsLineBreak(line[k])
    ensures LineCount(s + line + "\n") == LineCount(s) + 1
  {
    BreaksConcat(s, line + "\n");
    assert s + line + "\n" == s + (line + "\n");
    NoBreaks(line);
    BreaksConcat(line, "\n");
  }

  lemma {:induction false} NoBreaks(line: string)
    requires forall k :: 0 <= k < |line| ==> !IsLineBreak(line[k])
    ensures Breaks(line) == 0
  {
    if line != [] {
      NoBreaks(line[1..]);
    }
  }

  /** The `lines_changed` figure: how far apart the two line counts are. */
  function LinesChanged(original: string, patched: string): (n: nat)
    ensures original == patched ==> n == 0
    ensures n == 0 <==> LineCount(original) == LineCount(patched)
  {
    var d := LineCount(patched) - LineCount(original);
    if d < 0 then -d else d
  }

  /** A patch that only adds one line to a text of complete lines changes one line. */
  lemma AddedLineCounted(original: string, line: string)
    requires original == [] || original[|original| - 1] == '\n'
    requires forall k :: 0 <= k < |line| ==> !IsLineBreak(line[k])
    ensures LinesChanged(original, original + line + "\n") == 1
  {
    AppendLine(original, line);
  }

  /**
   * The figure compares line counts, not lines: rewriting the one line of a
   * file, however much, counts as no line changed.
   */
  lemma RewrittenLineNotCounted(before: string, after: string)
    requires forall k :: 0 <= k < |before| ==> !IsLineBreak(before[k])
    requires forall k :: 0 <= k < |after| ==> !IsLineBreak(after[k])
    ensures LinesChanged(before + "\n", after + "\n") == 0
  {
    AppendLine([], before);
    AppendLine([], after);
    assert [] + before + "\n" == before + "\n";
    assert [] + after + "\n" == after + "\n";
  }

  // ------------------------------------------------------- language checks

  /** What `ast` reports about a Python file pair. */
  datatype PythonAnalysis = PythonAnalysis(
    syntaxError: Option<string>,
    syntaxErrorLine: Option<int>,
    originalImports: seq<string>,
    patchedImports: seq<string>,
    originalFunctions: seq<(string, string)>,
    patchedFunctions: map<string, string>)

  /** What the regular expressions find. */
  datatype DangerousMatch = DangerousMatch(pattern: nat, start: nat)

  datatype Analysis = Analysis(
    python: PythonAnalysis,
    originalJavaMethods: seq<string>,
    patchedJavaMethods: set<string>,
    dangerousMatches: seq<DangerousMatch>)

  /** The message of each entry in the dangerous-pattern table, in table order. */
  const DangerousPatternMessages: seq<string> := [
    "Use of eval() is dangerous",
    "Use of exec() is dangerous",
    "Dynamic imports may be unsafe",
    "Shell injection risk",
    "Command injection risk",
    "Pickle deserialization is unsafe",
    "Unsafe YAML loading (use safe_load)"
  ]

  function Join(items: seq<string>): string
  {
    if items == [] then "" else if |items| == 1 then items[0] else items[0] + ", " + Join(items[1..])
  }

  function Missing(items: seq<string>, from: seq<string>): (r: seq<string>)
    ensures forall x :: x in r <==> x in items && x !in from
  {
    if items == [] then []
    else (if items[0] in from then [] else [items[0]]) + Missing(items[1..], from)
  }

  /** A function kept by the patch whose signature text differs. */
  predicate SignatureChangedIn(f: (string, string), patched: map<string, string>)
  {
    f.0 in patched && patched[f.0] != f.1
  }

  /** The `signature_changed` issue for one function: FAIL under STRICT, WARNING otherwise. */
  function SignatureIssue(level: ValidationLevel, name: string): ValidationIssue
  {
    ValidationIssue(if level == Strict then Fail else Warning, SignatureChanged, "Function signature changed: " + name, None)
  }

  /** The checks `signature_changed` may raise, one per changed function in original order. */
  function SignatureIssues(level: ValidationLevel, functions: seq<(string, string)>, patched: map<string, string>)
    : (r: seq<ValidationIssue>)
    ensures forall i :: i in r ==> i.check == SignatureChanged && i.level == (if level == Strict then Fail else Warning)
    ensures forall f :: f in functions && SignatureChangedIn(f, patched) ==> SignatureIssue(level, f.0) in r
    ensures forall i :: i in r ==> exists f :: f in functions && SignatureChangedIn(f, patched) && i == SignatureIssue(level, f.0)
  {
    if functions == [] then []
    else
      (if SignatureChangedIn(functions[0], patched) then [SignatureIssue(level, functions[0].0)] else [])
      + SignatureIssues(level, functions[1..], patched)
  }

  /** The `imports_removed` WARNING: raised when some import is gone, unless the level is PERMISSIVE. */
  function RemovedImportIssues(level: ValidationLevel, originalImports: seq<string>, patchedImports: seq<string>)
    : (r: seq<ValidationIssue>)
    ensures forall i :: i in r ==> i.check == ImportsRemoved && i.level == Warning
    ensures r != [] <==> level != Permissive && exists x :: x in originalImports && x !in patchedImports
  {
    var removed := Missing(originalImports, patchedImports);
    assert removed != [] ==> removed[0] in removed;
    if removed != [] && level != Permissive then
      [ValidationIssue(Warning, ImportsRemoved, "Imports removed: " + Join(removed), None)]
    else []
  }

  /** The `imports_added` PASS note: raised exactly when some import is new. */
  function AddedImportIssues(originalImports: seq<string>, patchedImports: seq<string>): (r: seq<ValidationIssue>)
    ensures forall i :: i in r ==> i.check == ImportsAdded && i.level == Pass
    ensures r != [] <==> exists x :: x in patchedImports && x !in originalImports
  {
    var added := Missing(patchedImports, originalImports);
    assert added != [] ==> added[0] in added;
    if added != [] then [ValidationIssue(Pass, ImportsAdded, "New imports added: " + Join(added), None)] else []
  }

  /** `_validate_python` past the syntax check: imports, then signatures. */
  function ComparisonIssues(level: ValidationLevel, p: PythonAnalysis): (r: seq<ValidationIssue>)
    ensures forall i :: i in r ==> i.check == ImportsRemoved || i.check == ImportsAdded || i.check == SignatureChanged
    ensures (exists i :: i in r && i.check == ImportsRemoved) <==>
            level != Permissive && exists x :: x in p.originalImports && x !in p.patchedImports
    ensures (exists i :: i in r && i.check == ImportsAdded) <==> exists x :: x in p.patchedImports && x !in p.originalImports
    ensures forall i :: i in r && i.check == SignatureChanged <==> i in SignatureIssues(level, p.originalFunctions, p.patchedFunctions)
  {
    var removed := RemovedImportIssues(level, p.originalImports, p.patchedImports);
    var added := AddedImportIssues(p.originalImports, p.patchedImports);
    var changed := SignatureIssues(level, p.originalFunctions, p.patchedFunctions);
    assert forall i :: i in removed + added + changed <==> i in removed || i in added || i in changed;
    assert removed != [] ==> removed[0] in removed + added + changed;
    assert added != [] ==> added[0] in removed + added + changed;
    removed + added + changed
  }

  /** `_validate_python`: a syntax error stops it; otherwise imports and signatures are compared. */
  function PythonIssues(level: ValidationLevel, p: PythonAnalysis): (r: seq<ValidationIssue>)
    ensures forall i :: i in r ==> i.check == Syntax || i.check == ImportsRemoved || i.check == ImportsAdded || i.check == SignatureChanged
    ensures p.syntaxError.Some? ==> |r| == 1 && r[0].level == Fail && r[0].check == Syntax
    ensures p.syntaxError.None? ==> forall i :: i in r ==> i.check != Syntax
    ensures p.syntaxError.None? ==>
      ((exists i :: i in r && i.check == ImportsRemoved) <==>
       level != Permissive && exists x :: x in p.originalImports && x !in p.patchedImports)
    ensures p.syntaxError.None? ==>
      ((exists i :: i in r && i.check == ImportsAdded) <==> exists x :: x in p.patchedImports && x !in p.originalImports)
    ensures p.syntaxError.None? ==>
      forall i :: i in r && i.check == SignatureChanged <==> i in SignatureIssues(level, p.originalFunctions, p.patchedFunctions)
  {
    if p.syntaxError.Some? then
      [ValidationIssue(Fail, Syntax, "Python syntax error: " + p.syntaxError.value, p.syntaxErrorLine)]
    else
      ComparisonIssues(level, p)
  }

  /** The `method_removed` issue for one public method. */
  function RemovedMethodIssue(m: string): ValidationIssue
  {
    ValidationIssue(Warning, MethodRemoved, "Public method removed or changed: " + m, None)
  }

  /** One WARNING per original public method the patched text no longer declares, in original order. */
  function RemovedMethodIssues(methods: seq<string>, patched: set<string>): (r: seq<ValidationIssue>)
    ensures forall i :: i in r ==> i.check == MethodRemoved && i.level == Warning
    ensures forall m :: m in methods && m !in patched ==> RemovedMethodIssue(m) in r
    ensures forall i :: i in r ==> exists m :: m in methods && m !in patched && i == RemovedMethodIssue(m)
  {
    if methods == [] then []
    else
      (if methods[0] !in patched then [RemovedMethodIssue(methods[0])] else [])
      + RemovedMethodIssues(methods[1..], patched)
  }

  function BraceIssue(languageName: string): ValidationIssue
  {
    ValidationIssue(Fail, Syntax, "Unbalanced braces in " + languageName + " code", None)
  }

  /** A FAIL `syntax` issue exactly when the brackets do not balance. */
  function BraceIssues(patched: string, languageName: string): (r: seq<ValidationIssue>)
    ensures forall i :: i in r ==> i.check == Syntax && i.level == Fail
    ensures r == [] <==> Balanced(patched)
  {
    if Balanced(patched) then [] else [BraceIssue(languageName)]
  }

  /** The PASS note, raised exactly when every `console.log` of the original is gone. */
  function ConsoleLogIssues(original: string, patched: string): (r: seq<ValidationIssue>)
    ensures forall i :: i in r ==> i.check == ConsoleLogRemoved && i.level == Pass
    ensures |r| <= 1
    ensures r != [] <==> Strings.Contains(original, "console.log") && !Strings.Contains(patched, "console.log")
  {
    if Strings.Contains(original, "console.log") && !Strings.Contains(patched, "console.log") then
      [ValidationIssue(Pass, ConsoleLogRemoved, "console.log statements removed (good for production)", None)]
    else []
  }

  /** The language-specific part of `validate_patch`. */
  function LanguageIssues(level: ValidationLevel, original: string, patched: string, language: string, a: Analysis)
    : (r: seq<ValidationIssue>)
    ensures forall i :: i in r ==> i.check != FileSize && i.check != LinesChangedCheck && i.check != DangerousPattern
  {
    if language == "python" then PythonIssues(level, a.python)
    else if language == "java" then BraceIssues(patched, "Java") + RemovedMethodIssues(a.originalJavaMethods, a.patchedJavaMethods)
    else if language == "javascript" then BraceIssues(patched, "JavaScript") + ConsoleLogIssues(original, patched)
    else [ValidationIssue(Warning, LanguageSupport, "No specific validation for language: " + language, None)]
  }

  function CountNewlines(s: string): nat
  {
    if s == [] then 0 else (if s[0] == '\n' then 1 else 0) + CountNewlines(s[1..])
  }

  predicate WellFormedMatches(content: string, matches: seq<DangerousMatch>)
  {
    forall m :: m in matches ==> m.pattern < |DangerousPatternMessages| && m.start <= |content|
  }

  /** The issue one dangerous match raises: FAIL under STRICT and WARNING otherwise, at the match's line. */
  function MatchIssue(level: ValidationLevel, content: string, m: DangerousMatch): (i: ValidationIssue)
    requires m.pattern < |DangerousPatternMessages| && m.start <= |content|
    ensures i.check == DangerousPattern && i.level == (if level == Strict then Fail else Warning)
    ensures i.message == DangerousPatternMessages[m.pattern]
    ensures i.lineNumber == Some(CountNewlines(content[..m.start]) + 1)
  {
    ValidationIssue(if level == Strict then Fail else Warning, DangerousPattern, DangerousPatternMessages[m.pattern],
                    Some(CountNewlines(content[..m.start]) + 1))
  }

  /** `_check_dangerous_patterns`: one issue per match, in match order. */
  function DangerousIssues(level: ValidationLevel, content: string, matches: seq<DangerousMatch>): (r: seq<ValidationIssue>)
    requires WellFormedMatches(content, matches)
    ensures |r| == |matches|
    ensures forall k :: 0 <= k < |r| ==> r[k] == MatchIssue(level, content, matches[k])
  {
    if matches == [] then []
    else
      var tail := DangerousIssues(level, content, matches[1..]);
      assert forall k :: 1 <= k < |matches| ==> matches[1..][k - 1] == matches[k];
      [MatchIssue(level, content, matches[0])] + tail
  }

  // ----------------------------------------------------------- validate_patch

  /** The file-size and changed-lines checks that open `validate_patch`. */
  function LimitIssues(config: Config, original: string, patched: string): (r: seq<ValidationIssue>)
    ensures forall i :: i in r ==> (i.check == FileSize && i.level == Fail) || (i.check == LinesChangedCheck && i.level == Warning)
  {
    (if |patched| > config.maxFileSize then
       [ValidationIssue(Fail, FileSize, "Patched file exceeds size limit (" + Strings.NatToString(|patched|) + " > "
                                           + Strings.IntToString(config.maxFileSize) + ")", None)]
     else [])
    + (if LinesChanged(original, patched) > config.maxLinesChanged then
         [ValidationIssue(Warning, LinesChangedCheck, "Large change: " + Strings.NatToString(LinesChanged(original, patched))
                                                    + " lines differ", None)]
       else [])
  }

  /** Every issue `validate_patch` reports, in the order its checks run. */
  function Issues(config: Config, original: string, patched: string, language: string, a: Analysis): seq<ValidationIssue>
    requires WellFormedMatches(patched, a.dangerousMatches)
  {
    LimitIssues(config, original, patched)
    + (LanguageIssues(config.validationLevel, original, patched, language, a)
       + DangerousIssues(config.validationLevel, patched, a.dangerousMatches))
  }

  /** The language dispatch of `validate_patch`, calling the bracket check for Java and JavaScript. */
  method LanguageChecks(level: ValidationLevel, originalContent: string, patchedContent: string, language: string, a: Analysis)
    returns (issues: seq<ValidationIssue>)
    ensures issues == LanguageIssues(level, originalContent, patchedContent, language, a)
  {
    if language == "python" {
      issues := PythonIssues(level, a.python);
    } else if language == "java" || language == "javascript" {
      var balanced := CheckBalancedBraces(patchedContent);
      var name := if language == "java" then "Java" else "JavaScript";
      issues := if balanced then [] else [BraceIssue(name)];
      if language == "java" {
        issues := issues + RemovedMethodIssues(a.originalJavaMethods, a.patchedJavaMethods);
      } else {
        issues := issues + ConsoleLogIssues(originalContent, patchedContent);
      }
    } else {
      issues := [ValidationIssue(Warning, LanguageSupport, "No specific validation for language: " + language, None)];
    }
  }

  /** `validate_patch`: the issues in the order the checks run, and the verdict over them. */
  method ValidatePatch(config: Config, originalContent: string, patchedContent: string, filePath: string, language: string,
                       a: Analysis)
    returns (isValid: bool, issues: seq<ValidationIssue>)
    requires WellFormedMatches(patchedContent, a.dangerousMatches)
    ensures issues == Issues(config, originalContent, patchedContent, language, a)
    ensures isValid == EvaluateIssues(config.validationLevel, issues)
  {
    var languageIssues := LanguageChecks(config.validationLevel, originalContent, patchedContent, language, a);
    issues := LimitIssues(config, originalContent, patchedContent)
      + (languageIssues + DangerousIssues(config.validationLevel, patchedContent, a.dangerousMatches));
    isValid := EvaluateIssues(config.validationLevel, issues);
  }

  /** The opening checks raise `file_size` exactly over the size limit and `lines_changed` exactly over the line limit. */
  lemma LimitIssuesMeaning(config: Config, original: string, patched: string)
    ensures (exists i :: i in LimitIssues(config, original, patched) && i.check == FileSize) <==> |patched| > config.maxFileSize
    ensures (exists i :: i in LimitIssues(config, original, patched) && i.check == LinesChangedCheck)
            <==> LinesChanged(original, patched) > config.maxLinesChanged
  {
    var l := LimitIssues(config, original, patched);
    var big := |patched| > config.maxFileSize;
    var long := LinesChanged(original, patched) > config.maxLinesChanged;
    if big {
      assert l[0].check == FileSize;
    }
    if long {
      assert l[|l| - 1].check == LinesChangedCheck;
    }
    if !big {
      assert forall i :: i in l ==> i.check == LinesChangedCheck;
    }
    if !long {
      assert forall i :: i in l ==> i.check == FileSize;
    }
  }

  /** No check after the opening ones raises `file_size` or `lines_changed`. */
  lemma LaterChecksKeepToTheirOwn(level: ValidationLevel, original: string, patched: string, language: string, a: Analysis,
                                  i: ValidationIssue)
    requires WellFormedMatches(patched, a.dangerousMatches)
    requires i in LanguageIssues(level, original, patched, language, a) + DangerousIssues(level, patched, a.dangerousMatches)
    ensures i.check != FileSize && i.check != LinesChangedCheck
  {
    var d := DangerousIssues(level, patched, a.dangerousMatches);
    if i in d {
      var k :| 0 <= k < |d| && d[k] == i;
    }
  }

  /** A FAIL `file_size` issue is raised exactly when the patched text is over the size limit. */
  lemma FileSizeFailIff(config: Config, original: string, patched: string, language: string, a: Analysis)
    requires WellFormedMatches(patched, a.dangerousMatches)
    ensures var issues := Issues(config, original, patched, language, a);
      (exists i :: i in issues && i.check == FileSize && i.level == Fail) <==> |patched| > config.maxFileSize
  {
    var l := LimitIssues(config, original, patched);
    var rest := LanguageIssues(config.validationLevel, original, patched, language, a)
                + DangerousIssues(config.validationLevel, patched, a.dangerousMatches);
    LimitIssuesMeaning(config, original, patched);
    forall i | i in rest
      ensures i.check != FileSize
    {
      LaterChecksKeepToTheirOwn(config.validationLevel, original, patched, language, a, i);
    }
  }

  /** A `lines_changed` warning is raised exactly when the line counts differ by more than the maximum. */
  lemma LinesChangedWarningIff(config: Config, original: string, patched: string, language: string, a: Analysis)
    requires WellFormedMatches(patched, a.dangerousMatches)
    ensures var issues := Issues(config, original, patched, language, a);
      (exists i :: i in issues && i.check == LinesChangedCheck && i.level == Warning)
        <==> LinesChanged(original, patched) > config.maxLinesChanged
  {
    var l := LimitIssues(config, original, patched);
    var rest := LanguageIssues(config.validationLevel, original, patched, language, a)
                + DangerousIssues(config.validationLevel, patched, a.dangerousMatches);
    LimitIssuesMeaning(config, original, patched);
    forall i | i in rest
      ensures i.check != LinesChangedCheck
    {
      LaterChecksKeepToTheirOwn(config.validationLevel, original, patched, language, a, i);
    }
  }

  lemma OnlyAddedImports(p: PythonAnalysis)
    requires p.syntaxError.None?
    requires Missing(p.originalImports, p.patchedImports) == []
    requires Missing(p.patchedImports, p.originalImports) != []
    requires SignatureIssues(Normal, p.originalFunctions, p.patchedFunctions) == []
    ensures PythonIssues(Normal, p)
            == [ValidationIssue(Pass, ImportsAdded, "New imports added: " + Join(Missing(p.patchedImports, p.originalImports)), None)]
  {
  }

  /**
   * An added import keeps a NORMAL Python patch valid: with no syntax error,
   * nothing removed, no signature change, no dangerous match and the limits
   * respected, the only issue is the PASS `imports_added` note.
   */
  lemma AddedImportKeepsNormalPatchValid(original: string, patched: string, a: Analysis)
    requires a.python.syntaxError.None? && a.dangerousMatches == []
    requires Missing(a.python.originalImports, a.python.patchedImports) == []
    requires Missing(a.python.patchedImports, a.python.originalImports) != []
    requires SignatureIssues(Normal, a.python.originalFunctions, a.python.patchedFunctions) == []
    requires |patched| <= 1024 * 1024 && LinesChanged(original, patched) <= 500
    ensures var issues := Issues(DefaultConfig(Normal), original, patched, "python", a);
      EvaluateIssues(Normal, issues) && exists i :: i in issues && i.check == ImportsAdded
  {
    OnlyAddedImports(a.python);
    var note := PythonIssues(Normal, a.python)[0];
    assert LimitIssues(DefaultConfig(Normal), original, patched) == [];
    assert LanguageIssues(Normal, original, patched, "python", a) == [note];
    assert DangerousIssues(Normal, patched, a.dangerousMatches) == [];
    var issues := Issues(DefaultConfig(Normal), original, patched, "python", a);
    assert issues == [] + ([note] + []);
    assert issues == [note];
    EvaluateIssuesMeaning(Normal, issues);
    assert note in issues;
  }

  /** Under STRICT any dangerous match makes the patch invalid through a FAIL issue. */
  lemma DangerousMatchFailsStrictPatch(config: Config, original: string, patched: string, language: string, a: Analysis)
    requires config.validationLevel == Strict
    requires WellFormedMatches(patched, a.dangerousMatches) && a.dangerousMatches != []
    ensures var issues := Issues(config, original, patched, language, a);
      !EvaluateIssues(Strict, issues)
      && exists i :: i in issues && i.check == DangerousPattern && i.level == Fail
  {
    var l := LimitIssues(config, original, patched);
    var g := LanguageIssues(Strict, original, patched, language, a);
    var d := DangerousIssues(Strict, patched, a.dangerousMatches);
    var issues := l + (g + d);
    assert issues[|l| + |g|] == d[0];
    EvaluateIssuesMeaning(Strict, issues);
  }
}
