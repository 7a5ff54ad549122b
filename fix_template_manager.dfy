/**
 * Fix templates: choosing the templates that fit an error and a language
 * (safest first), looking one up by id, filling in its `{{name}}`
 * placeholders from a context, and checking that a context supplies every
 * placeholder.
 *
 * Reading the templates from YAML is not modelled: the loaded templates are
 * the constructor's argument.
 */
module FixTemplateManager {
  import opened Wrappers
  import Strings

  /** A template record; None stands for a key the record does not hold. */
  datatype FixTemplate = FixTemplate(
    id: Option<string>,
    name: Option<string>,
    language: Option<string>,
    errorTypes: seq<string>,
    safetyLevel: Option<string>,
    fixTemplate: Option<string>)

  // -------------------------------------------------------------- matching

  /** The template's language admits the requested one: '*' (also when unset) or equal. */
  predicate LanguageFits(t: FixTemplate, language: string)
  {
    var lang := t.language.GetOr("*");
    lang == "*" || lang == language
  }

  /** Some listed error type is contained in the error type or contains it. */
  predicate PartialMatch(errorTypes: seq<string>, errorType: string)
  {
    exists k :: 0 <= k < |errorTypes| && (Strings.Contains(errorType, errorTypes[k]) || Strings.Contains(errorTypes[k], errorType))
  }

  /** A template matches on language and on its error types: listed, wildcard, or partial. */
  predicate Matches(t: FixTemplate, errorType: string, language: string)
  {
    LanguageFits(t, language)
    && ("*" in t.errorTypes || errorType in t.errorTypes || PartialMatch(t.errorTypes, errorType))
  }

  /** The matching templates, in the order they were loaded. */
  function MatchingInOrder(templates: seq<FixTemplate>, errorType: string, language: string): seq<FixTemplate>
  {
    if templates == [] then []
    else MatchingInOrder(templates[..|templates| - 1], errorType, language)
         + (if Matches(templates[|templates| - 1], errorType, language) then [templates[|templates| - 1]] else [])
  }

  /** Every match fits, and each loaded template is matched at most as often as it was loaded. */
  lemma {:induction false} MatchingInOrderSound(templates: seq<FixTemplate>, errorType: string, language: string)
    ensures forall t :: t in MatchingInOrder(templates, errorType, language) ==> t in templates && Matches(t, errorType, language)
    ensures multiset(MatchingInOrder(templates, errorType, language)) <= multiset(templates)
  {
    if templates != [] {
      var init := templates[..|templates| - 1];
      MatchingInOrderSound(init, errorType, language);
      assert templates == init + [templates[|templates| - 1]];
    }
  }

  /** Every loaded template that fits is matched. */
  lemma {:induction false} MatchingInOrderComplete(templates: seq<FixTemplate>, errorType: string, language: string, t: FixTemplate)
    requires t in templates && Matches(t, errorType, language)
    ensures t in MatchingInOrder(templates, errorType, language)
  {
    var init := templates[..|templates| - 1];
    if t != templates[|templates| - 1] {
      assert templates == init + [templates[|templates| - 1]];
      MatchingInOrderComplete(init, errorType, language, t);
    }
  }

  /** The `safety_order` key: high 0, medium 1, low 2, and an unknown or unset level counts as medium. */
  function SafetyRank(t: FixTemplate): (r: nat)
    ensures r <= 2
  {
    var level := t.safetyLevel.GetOr("medium");
    if level == "high" then 0 else if level == "low" then 2 else 1
  }

  /** Rank 0 is exactly a "high" level and rank 2 exactly a "low" one; anything else (or nothing) is rank 1. */
  lemma SafetyRankLevels(t: FixTemplate)
    ensures t.safetyLevel == Some("high") <==> SafetyRank(t) == 0
    ensures t.safetyLevel == Some("low") <==> SafetyRank(t) == 2
  {
  }

  function OfRank(ts: seq<FixTemplate>, rank: nat): seq<FixTemplate>
  {
    if ts == [] then [] else (if SafetyRank(ts[0]) == rank then [ts[0]] else []) + OfRank(ts[1..], rank)
  }

  /** The templates of one rank are templates of the input, all of that rank. */
  lemma {:induction false} OfRankMembers(ts: seq<FixTemplate>, rank: nat)
    ensures forall t :: t in OfRank(ts, rank) ==> t in ts && SafetyRank(t) == rank
  {
    if ts != [] {
      OfRankMembers(ts[1..], rank);
    }
  }

  /**
   * What a stable sort on the safety key yields: the templates of each rank
   * in their original order, ranks ascending.
   */
  function SortBySafety(ts: seq<FixTemplate>): seq<FixTemplate>
  {
    OfRank(ts, 0) + OfRank(ts, 1) + OfRank(ts, 2)
  }

  /** Splitting by rank loses and adds nothing. */
  lemma {:induction false} RanksPartition(ts: seq<FixTemplate>)
    ensures multiset(OfRank(ts, 0)) + multiset(OfRank(ts, 1)) + multiset(OfRank(ts, 2)) == multiset(ts)
  {
    if ts != [] {
      RanksPartition(ts[1..]);
      assert ts == [ts[0]] + ts[1..];
    }
  }

  /** The sorted matches are a permutation of the matches, ordered safest first. */
  lemma SortBySafetyIsSortedPermutation(ts: seq<FixTemplate>)
    ensures multiset(SortBySafety(ts)) == multiset(ts)
    ensures forall i, j :: 0 <= i < j < |SortBySafety(ts)| ==> SafetyRank(SortBySafety(ts)[i]) <= SafetyRank(SortBySafety(ts)[j])
  {
    RanksPartition(ts);
    OfRankMembers(ts, 0);
    OfRankMembers(ts, 1);
    OfRankMembers(ts, 2);
    var a, b, c := OfRank(ts, 0), OfRank(ts, 1), OfRank(ts, 2);
    var s := SortBySafety(ts);
    assert s == a + b + c;
    forall i | 0 <= i < |s|
      ensures SafetyRank(s[i]) == if i < |a| then 0 else if i < |a| + |b| then 1 else 2
    {
      if i < |a| {
        assert s[i] == a[i] && a[i] in a;
      } else if i < |a| + |b| {
        assert s[i] == b[i - |a|] && b[i - |a|] in b;
      } else {
        assert s[i] == c[i - |a| - |b|] && c[i - |a| - |b|] in c;
      }
    }
  }

  /** Templates of the same rank keep their relative order. */
  lemma {:induction false} OfRankDistributes(x: seq<FixTemplate>, y: seq<FixTemplate>, rank: nat)
    ensures OfRank(x + y, rank) == OfRank(x, rank) + OfRank(y, rank)
  {
    if x == [] {
      assert x + y == y;
    } else {
      var head := if SafetyRank(x[0]) == rank then [x[0]] else [];
      assert (x + y)[0] == x[0] && (x + y)[1..] == x[1..] + y;
      assert OfRank(x + y, rank) == head + OfRank(x[1..] + y, rank);
      OfRankDistributes(x[1..], y, rank);
      assert head + (OfRank(x[1..], rank) + OfRank(y, rank)) == (head + OfRank(x[1..], rank)) + OfRank(y, rank);
    }
  }

  /** Two templates of one rank that were loaded one before the other are sorted in that order. */
  lemma SortIsStable(x: seq<FixTemplate>, p: FixTemplate, y: seq<FixTemplate>, q: FixTemplate, z: seq<FixTemplate>)
    requires SafetyRank(p) == SafetyRank(q)
    ensures var r := OfRank(x + [p] + y + [q] + z, SafetyRank(p));
            exists i, j :: 0 <= i < j < |r| && r[i] == p && r[j] == q
  {
    var k := SafetyRank(p);
    OfRankDistributes(x + [p] + y + [q], z, k);
    OfRankDistributes(x + [p] + y, [q], k);
    OfRankDistributes(x + [p], y, k);
    OfRankDistributes(x, [p], k);
    assert OfRank([p], k) == [p] by { assert [p][1..] == []; }
    assert OfRank([q], k) == [q] by { assert [q][1..] == []; }
    var r := OfRank(x + [p] + y + [q] + z, k);
    var i := |OfRank(x, k)|;
    var j := i + 1 + |OfRank(y, k)|;
    assert r == OfRank(x, k) + [p] + OfRank(y, k) + [q] + OfRank(z, k);
    assert r[i] == p && r[j] == q;
  }

  // ------------------------------------------------------------- rendering

  function Placeholder(key: string): string
  {
    "{{" + key + "}}"
  }

  /** `s.replace(pattern, replacement)`: every non-overlapping occurrence, scanning left to right. */
  function ReplaceAll(s: string, pattern: string, replacement: string): string
    requires pattern != []
  {
    if |s| < |pattern| then s
    else if s[..|pattern|] == pattern then replacement + ReplaceAll(s[|pattern|..], pattern, replacement)
    else [s[0]] + ReplaceAll(s[1..], pattern, replacement)
  }

  /** A text without the searched-for text is left as it is. */
  lemma {:induction false} ReplaceAbsent(s: string, pattern: string, replacement: string)
    requires pattern != [] && !Strings.Contains(s, pattern)
    ensures ReplaceAll(s, pattern, replacement) == s
  {
    if |s| >= |pattern| {
      assert !Strings.OccursAt(s, pattern, 0);
      assert s[..|pattern|] != pattern;
      forall i | 0 <= i <= |s[1..]| - |pattern|
        ensures !Strings.OccursAt(s[1..], pattern, i)
      {
        assert !Strings.OccursAt(s, pattern, i + 1);
        assert s[1..][i..i + |pattern|] == s[i + 1..i + 1 + |pattern|];
      }
      ReplaceAbsent(s[1..], pattern, replacement);
    }
  }

  /** Replacing a text by itself changes nothing. */
  lemma {:induction false} ReplaceBySelf(s: string, pattern: string)
    requires pattern != []
    ensures ReplaceAll(s, pattern, pattern) == s
  {
    if |s| >= |pattern| {
      if s[..|pattern|] == pattern {
        ReplaceBySelf(s[|pattern|..], pattern);
        assert s == s[..|pattern|] + s[|pattern|..];
      } else {
        ReplaceBySelf(s[1..], pattern);
        assert s == [s[0]] + s[1..];
      }
    }
  }

  /** The text after the first `n` context entries have been substituted, in context order. */
  function RenderedBelow(code: string, context: seq<(string, string)>, n: nat): string
    requires n <= |context|
  {
    if n == 0 then code
    else ReplaceAll(RenderedBelow(code, context, n - 1), Placeholder(context[n - 1].0), context[n - 1].1)
  }

  function Rendered(t: FixTemplate, context: seq<(string, string)>): string
  {
    RenderedBelow(t.fixTemplate.GetOr(""), context, |context|)
  }

  /** Rendering leaves the text as it is when no placeholder of the context occurs in it. */
  lemma {:induction false} RenderUntouched(code: string, context: seq<(string, string)>, n: nat)
    requires n <= |context|
    requires forall k :: 0 <= k < |context| ==> !Strings.Contains(code, Placeholder(context[k].0))
    ensures RenderedBelow(code, context, n) == code
  {
    if n > 0 {
      RenderUntouched(code, context, n - 1);
      ReplaceAbsent(code, Placeholder(context[n - 1].0), context[n - 1].1);
    }
  }

  // -------------------------------------------------------- placeholders

  /** A `\w` character, restricted to ASCII. */
  predicate IsWordChar(c: char)
  {
    'a' <= c <= 'z' || 'A' <= c <= 'Z' || '0' <= c <= '9' || c == '_'
  }

  /** Length of the run of word characters starting at `i`. */
  function WordRun(s: string, i: nat): (n: nat)
    requires i <= |s|
    ensures i + n <= |s|
    ensures forall k :: i <= k < i + n ==> IsWordChar(s[k])
    ensures i + n < |s| ==> !IsWordChar(s[i + n])
    decreases |s| - i
  {
    if i == |s| || !IsWordChar(s[i]) then 0 else 1 + WordRun(s, i + 1)
  }

  /** `re.findall(r'{{(\w+)}}', s[i..])` as seen from position `i` of `s`. */
  function PlaceholdersFrom(s: string, i: nat): seq<string>
    requires i <= |s|
    decreases |s| - i
  {
    if i + 2 > |s| then []
    else if s[i] == '{' && s[i + 1] == '{' then
      var n := WordRun(s, i + 2);
      if n > 0 && i + n + 4 <= |s| && s[i + 2 + n] == '}' && s[i + 3 + n] == '}' then
        [s[i + 2..i + 2 + n]] + PlaceholdersFrom(s, i + n + 4)
      else PlaceholdersFrom(s, i + 1)
    else PlaceholdersFrom(s, i + 1)
  }

  function Placeholders(s: string): seq<string>
  {
    PlaceholdersFrom(s, 0)
  }

  /** Two opening braces, a name and two closing braces at `i` are the placeholder of that name. */
  lemma PlaceholderAt(s: string, i: nat, n: nat)
    requires i + n + 4 <= |s|
    requires s[i] == '{' && s[i + 1] == '{' && s[i + 2 + n] == '}' && s[i + 3 + n] == '}'
    ensures Strings.Contains(s, Placeholder(s[i + 2..i + 2 + n]))
  {
    var p := Placeholder(s[i + 2..i + 2 + n]);
    assert |p| == n + 4;
    assert forall k :: 0 <= k < n + 4 ==> s[i..i + n + 4][k] == p[k];
    assert Strings.OccursAt(s, p, i);
  }

  /** Every variable found occurs as a placeholder in the text. */
  lemma {:induction false} PlaceholdersOccur(s: string, i: nat, v: string)
    requires i <= |s| && v in PlaceholdersFrom(s, i)
    ensures Strings.Contains(s, Placeholder(v))
    decreases |s| - i
  {
    if s[i] == '{' && s[i + 1] == '{' {
      var n := WordRun(s, i + 2);
      if n > 0 && i + n + 4 <= |s| && s[i + 2 + n] == '}' && s[i + 3 + n] == '}' {
        if v == s[i + 2..i + 2 + n] {
          PlaceholderAt(s, i, n);
        } else {
          PlaceholdersOccur(s, i + n + 4, v);
        }
      } else {
        PlaceholdersOccur(s, i + 1, v);
      }
    } else {
      PlaceholdersOccur(s, i + 1, v);
    }
  }

  function Keys(context: seq<(string, string)>): set<string>
  {
    set k | 0 <= k < |context| :: context[k].0
  }

  /** The required variables the context lacks, in order of appearance (repeats included). */
  function MissingVariables(vars: seq<string>, keys: set<string>): (r: seq<string>)
    ensures forall v :: v in r <==> v in vars && v !in keys
  {
    if vars == [] then []
    else MissingVariables(vars[..|vars| - 1], keys) + (if vars[|vars| - 1] in keys then [] else [vars[|vars| - 1]])
  }

  datatype ContextCheck = ContextCheck(valid: bool, missingVariables: seq<string>)

  // --------------------------------------------------------------- manager

  class FixTemplateManager {
    var templates: seq<FixTemplate>

    /** `loaded` is None when the template file could not be read, which leaves no templates. */
    constructor(loaded: Option<seq<FixTemplate>>)
      ensures templates == loaded.GetOr([])
    {
      templates := loaded.GetOr([]);
    }

    /** `find_matching_templates`. */
    method FindMatchingTemplates(errorType: string, language: string) returns (matching: seq<FixTemplate>)
      ensures matching == SortBySafety(MatchingInOrder(templates, errorType, language))
    {
      matching := [];
      var i := 0;
      while i < |templates|
        invariant 0 <= i <= |templates|
        invariant matching == MatchingInOrder(templates[..i], errorType, language)
      {
        var t := templates[i];
        assert templates[..i + 1][..i] == templates[..i];
        if LanguageFits(t, language) {
          if "*" in t.errorTypes || errorType in t.errorTypes {
            matching := matching + [t];
          } else {
            var partial := AnyPartialMatch(t.errorTypes, errorType);
            if partial {
              matching := matching + [t];
            }
          }
        }
        i := i + 1;
      }
      assert templates[..i] == templates;
      matching := SortBySafety(matching);
    }

    /** The inner loop of `find_matching_templates`, stopping at the first partial match. */
    static method AnyPartialMatch(errorTypes: seq<string>, errorType: string) returns (found: bool)
      ensures found == PartialMatch(errorTypes, errorType)
    {
      var k := 0;
      while k < |errorTypes|
        invariant 0 <= k <= |errorTypes|
        invariant forall j :: 0 <= j < k ==> !(Strings.Contains(errorType, errorTypes[j]) || Strings.Contains(errorTypes[j], errorType))
      {
        if Strings.Contains(errorType, errorTypes[k]) || Strings.Contains(errorTypes[k], errorType) {
          return true;
        }
        k := k + 1;
      }
      return false;
    }

    /** `get_template_by_id`: the first template carrying the id, or None. */
    method GetTemplateById(templateId: string) returns (r: Option<FixTemplate>)
      ensures r.None? <==> forall k :: 0 <= k < |templates| ==> templates[k].id != Some(templateId)
      ensures r.Some? ==>
        exists k :: 0 <= k < |templates| && templates[k] == r.value && r.value.id == Some(templateId)
                    && (forall j :: 0 <= j < k ==> templates[j].id != Some(templateId))
    {
      var i := 0;
      while i < |templates|
        invariant 0 <= i <= |templates|
        invariant forall j :: 0 <= j < i ==> templates[j].id != Some(templateId)
      {
        if templates[i].id == Some(templateId) {
          return Some(templates[i]);
        }
        i := i + 1;
      }
      return None;
    }

    /** `render_template`: each context entry substituted in turn. */
    static method RenderTemplate(t: FixTemplate, context: seq<(string, string)>) returns (fixCode: string)
      ensures fixCode == Rendered(t, context)
    {
      fixCode := t.fixTemplate.GetOr("");
      var i := 0;
      while i < |context|
        invariant 0 <= i <= |context|
        invariant fixCode == RenderedBelow(t.fixTemplate.GetOr(""), context, i)
      {
        var (key, value) := context[i];
        fixCode := ReplaceAll(fixCode, Placeholder(key), value);
        i := i + 1;
      }
    }

    /** `validate_template_context`: valid exactly when the context supplies every placeholder. */
    static method ValidateTemplateContext(t: FixTemplate, context: seq<(string, string)>) returns (v: ContextCheck)
      ensures v.missingVariables == MissingVariables(Placeholders(t.fixTemplate.GetOr("")), Keys(context))
      ensures v.valid <==> forall x :: x in Placeholders(t.fixTemplate.GetOr("")) ==> x in Keys(context)
    {
      var required := Placeholders(t.fixTemplate.GetOr(""));
      var keys := Keys(context);
      var valid := true;
      var missing: seq<string> := [];
      var i := 0;
      while i < |required|
        invariant 0 <= i <= |required|
        invariant missing == MissingVariables(required[..i], keys)
        invariant valid <==> missing == []
      {
        assert required[..i + 1][..i] == required[..i];
        if required[i] !in keys {
          valid := false;
          missing := missing + [required[i]];
        }
        i := i + 1;
      }
      assert required[..i] == required;
      if missing != [] {
        assert missing[0] in missing;
      }
      v := ContextCheck(valid, missing);
    }
  }

  /** A missing variable is one the text really mentions as a placeholder. */
  lemma MissingVariablesOccur(t: FixTemplate, context: seq<(string, string)>, x: string)
    requires x in MissingVariables(Placeholders(t.fixTemplate.GetOr("")), Keys(context))
    ensures Strings.Contains(t.fixTemplate.GetOr(""), Placeholder(x))
    ensures x !in Keys(context)
  {
    PlaceholdersOccur(t.fixTemplate.GetOr(""), 0, x);
  }
}
