/**
 * The backend's prompt builders. Each builds a list of text segments and
 * joins them with line feeds (Python's `"\n".join`). Optional segments
 * depend on the truthiness of their argument. An `Optional[str]` argument
 * is `Option<string>`: it is truthy when it is present and not empty.
 *
 * Every builder is modelled twice: as its segment list, whose contract
 * places each segment, and as the joined prompt. A decoder recovers the
 * free-text argument (the stack trace or the code) from the prompt, given
 * the other arguments.
 */
module PromptBuilder {
  import opened Lines

  /** Python truthiness of an `Optional[str]`. */
  predicate Truthy(o: Option<string>)
  {
    o.Some? && |o.value| > 0
  }

  /** The segment `caption + value` when `value` is truthy, nothing otherwise. */
  function OptionalSegment(caption: string, o: Option<string>): (r: seq<string>)
    ensures |r| == (if Truthy(o) then 1 else 0)
    ensures Truthy(o) ==> r[0] == caption + o.value
  {
    if Truthy(o) then [caption + o.value] else []
  }

  /** A string that differs from `s` at index `k` is no prefix of it. */
  lemma DiffersAt(p: string, s: string, k: nat)
    requires k < |p| && k < |s| && p[k] != s[k]
    ensures !(p <= s)
  {
  }

  // ---------------------------------------------------------------------
  // build_stacktrace_prompt

  const StackTraceHeader: seq<string> := [
    "You are an expert debugging assistant that helps developers understand error stack traces.",
    "Please analyze the following stack trace and provide:",
    "1. A clear explanation of what caused the error",
    "2. Step-by-step suggestions to fix the issue",
    "3. References to documentation if relevant",
    "\n\nStack Trace:\n"
  ]

  const LanguageLabel := "\nLanguage: "
  const FrameworkLabel := "\nFramework: "
  // Long texts are written as a short head and the rest, so that their first
  // characters can be read off without unfolding the whole literal.
  const StackTraceJsonInstruction := "\nPlease " + "format your response as JSON with the following structure:"
  /** The JSON schema of the reply, a triple-quoted text, line by line. */
  const StackTraceSchema :=
    "\n    {"
    + "\n        \"explanation\": \"Clear explanation of what's happening\","
    + "\n        \"possible_fixes\": [\"Fix 1\", \"Fix 2\", ...],"
    + "\n        \"references\": [\"URL 1\", \"URL 2\", ...]"
    + "\n    }"
    + "\n    "

  /** The segments after the stack trace: the optional ones, then the JSON-format tail. */
  function StackTraceTail(language: Option<string>, framework: Option<string>): seq<string>
  {
    OptionalSegment(LanguageLabel, language) + OptionalSegment(FrameworkLabel, framework)
      + [StackTraceJsonInstruction, StackTraceSchema]
  }

  /** The segment list `build_stacktrace_prompt` joins. */
  function StackTraceSegments(stackTrace: string, language: Option<string>, framework: Option<string>): (r: seq<string>)
    ensures |r| == 9 + (if Truthy(language) then 1 else 0) + (if Truthy(framework) then 1 else 0)
    ensures r[..6] == StackTraceHeader && r[6] == stackTrace
    // the language segment, when present, comes first after the stack trace
    ensures Truthy(language) <==> LanguageLabel <= r[7]
    ensures Truthy(language) ==> r[7] == LanguageLabel + language.value
    // the framework segment, when present, follows the language segment
    ensures var i := if Truthy(language) then 8 else 7;
      && (Truthy(framework) <==> FrameworkLabel <= r[i])
      && (Truthy(framework) ==> r[i] == FrameworkLabel + framework.value)
    // the JSON-format instruction and schema close the prompt
    ensures r[|r| - 2] == StackTraceJsonInstruction && r[|r| - 1] == StackTraceSchema
  {
    StackTraceLabelsDistinct(if framework.Some? then framework.value else "");
    StackTraceHeader + [stackTrace] + StackTraceTail(language, framework)
  }

  /** The segments that may follow the stack trace start differently. */
  lemma StackTraceLabelsDistinct(fw: string)
    ensures !(LanguageLabel <= FrameworkLabel + fw)
    ensures !(LanguageLabel <= StackTraceJsonInstruction)
    ensures !(FrameworkLabel <= StackTraceJsonInstruction)
  {
    DiffersAt(LanguageLabel, FrameworkLabel + fw, 1);
    DiffersAt(LanguageLabel, StackTraceJsonInstruction, 1);
    DiffersAt(FrameworkLabel, StackTraceJsonInstruction, 1);
  }

  /**
   * `build_stacktrace_prompt`: the stack trace sits verbatim on lines of its
   * own, between the joined header and the joined tail.
   */
  function StackTracePrompt(stackTrace: string, language: Option<string>, framework: Option<string>): (r: string)
    ensures r == (Join("\n", StackTraceHeader) + "\n") + stackTrace + ("\n" + Join("\n", StackTraceTail(language, framework)))
  {
    JoinAround("\n", StackTraceHeader, stackTrace, StackTraceTail(language, framework));
    Join("\n", StackTraceSegments(stackTrace, language, framework))
  }

  /** The prompt ends with the JSON-format instruction and the schema, on their own lines. */
  lemma StackTraceEndsWithSchema(stackTrace: string, language: Option<string>, framework: Option<string>)
    ensures EndsWith(StackTracePrompt(stackTrace, language, framework),
                     "\n" + StackTraceJsonInstruction + "\n" + StackTraceSchema)
  {
    JoinEndsWithLastTwo("\n", StackTraceSegments(stackTrace, language, framework));
  }

  /** Reads the stack trace back out of a stack-trace prompt. */
  function StackTraceOf(prompt: string, language: Option<string>, framework: Option<string>): Option<string>
  {
    Between(prompt, Join("\n", StackTraceHeader) + "\n", "\n" + Join("\n", StackTraceTail(language, framework)))
  }

  /** The stack trace is recovered from the prompt, so it is carried unaltered. */
  lemma StackTraceRoundTrip(stackTrace: string, language: Option<string>, framework: Option<string>)
    ensures StackTraceOf(StackTracePrompt(stackTrace, language, framework), language, framework) == Some(stackTrace)
  {
    var pre := Join("\n", StackTraceHeader) + "\n";
    var suf := "\n" + Join("\n", StackTraceTail(language, framework));
    BetweenInverse(pre, stackTrace, suf);
  }

  /** With the optional arguments fixed, different stack traces give different prompts. */
  lemma StackTracePromptInjective(t1: string, t2: string, language: Option<string>, framework: Option<string>)
    ensures StackTracePrompt(t1, language, framework) == StackTracePrompt(t2, language, framework) ==> t1 == t2
  {
    StackTraceRoundTrip(t1, language, framework);
    StackTraceRoundTrip(t2, language, framework);
  }

  /**
   * Across different optional arguments the prompt does not determine the
   * inputs: a stack trace whose last line reads like the language segment
   * yields the same prompt as the shorter trace with that language given.
   */
  lemma StackTraceLanguageIndistinct(t: string, lang: string)
    requires |lang| > 0
    ensures StackTracePrompt(t + "\n" + (LanguageLabel + lang), None, None)
         == StackTracePrompt(t, Some(lang), None)
  {
    var rest := [StackTraceJsonInstruction, StackTraceSchema];
    assert StackTraceSegments(t + "\n" + (LanguageLabel + lang), None, None)
        == StackTraceHeader + [t + "\n" + (LanguageLabel + lang)] + rest;
    assert StackTraceSegments(t, Some(lang), None) == StackTraceHeader + [t, LanguageLabel + lang] + rest;
    JoinMerge("\n", StackTraceHeader, t, LanguageLabel + lang, rest);
  }

  // ---------------------------------------------------------------------
  // build_refactor_prompt

  const Fence := "```"
  const LevelLabel := "\nModernization level: "
  const PreserveLabel := "Preserve comments: "
  const OriginalCodeLabel := "\nOriginal code:\n"
  const DefaultModernizationLevel := "moderate"

  /** The segments after the code: the closing fence, the instructions and the schema. */
  const RefactorTrailer: seq<string> := [
    Fence,
    "\nPlease refactor this code to use modern features and best practices.",
    "For each change you make, briefly explain the reasoning behind it.",
    "Format your response as JSON with the following structure:",
    RefactorSchema
  ]

  /** The JSON schema of the reply, a triple-quoted text, line by line. */
  const RefactorSchema :=
    "\n        {"
    + "\n            \"refactored_code\": \"The complete refactored code\","
    + "\n            \"changes_made\": [\"Change 1\", \"Change 2\", ...],"
    + "\n            \"migration_notes\": \"Any additional notes about the refactoring\""
    + "\n        }"
    + "\n        "

  /** The segments before the code: the instructions and the opening fence. */
  function RefactorHead(sourceLanguage: string, sourceVersion: string, targetVersion: string,
                        preserveComments: bool, modernizationLevel: string): seq<string>
  {
    [ "You are an expert " + sourceLanguage + " developer tasked with modernizing code.",
      "Please refactor the following " + sourceLanguage + " " + sourceVersion + " code to use "
        + targetVersion + " features.",
      LevelLabel + Upper(modernizationLevel),
      PreserveLabel + (if preserveComments then "Yes" else "No"),
      OriginalCodeLabel,
      Fence ]
  }

  /** The segment list `build_refactor_prompt` joins. */
  function RefactorSegments(code: string, sourceLanguage: string, sourceVersion: string, targetVersion: string,
                            preserveComments: bool, modernizationLevel: string): (r: seq<string>)
    ensures |r| == 12
    // the code is fenced by two segments of three backticks
    ensures r[5] == Fence && r[6] == code && r[7] == Fence
    // "Yes" exactly when comments are to be preserved, "No" otherwise
    ensures r[3] == PreserveLabel + "Yes" <==> preserveComments
    ensures r[3] == PreserveLabel + "No" <==> !preserveComments
    // the level is the argument upper-cased, letter for letter
    ensures LevelLabel <= r[2] && |r[2]| == |LevelLabel| + |modernizationLevel|
    ensures forall k :: 0 <= k < |modernizationLevel| ==>
      r[2][|LevelLabel| + k] == UpperChar(modernizationLevel[k])
    ensures forall k :: |LevelLabel| <= k < |r[2]| ==> !('a' <= r[2][k] <= 'z')
    ensures r[7..] == RefactorTrailer
  {
    RefactorHead(sourceLanguage, sourceVersion, targetVersion, preserveComments, modernizationLevel)
      + [code] + RefactorTrailer
  }

  /** `build_refactor_prompt`: the code sits verbatim on lines of its own, between the joined head and trailer. */
  function RefactorPrompt(code: string, sourceLanguage: string, sourceVersion: string, targetVersion: string,
                          preserveComments: bool, modernizationLevel: string): (r: string)
    ensures r == (Join("\n", RefactorHead(sourceLanguage, sourceVersion, targetVersion, preserveComments, modernizationLevel)) + "\n")
                 + code + ("\n" + Join("\n", RefactorTrailer))
  {
    JoinAround("\n", RefactorHead(sourceLanguage, sourceVersion, targetVersion, preserveComments, modernizationLevel),
               code, RefactorTrailer);
    Join("\n", RefactorSegments(code, sourceLanguage, sourceVersion, targetVersion, preserveComments, modernizationLevel))
  }

  /** The code appears verbatim on its own lines, between two fence lines. */
  lemma RefactorCodeFenced(code: string, sourceLanguage: string, sourceVersion: string, targetVersion: string,
                           preserveComments: bool, modernizationLevel: string)
    ensures Contains(RefactorPrompt(code, sourceLanguage, sourceVersion, targetVersion, preserveComments, modernizationLevel),
                     Fence + "\n" + code + "\n" + Fence)
  {
    JoinWindow("\n", RefactorSegments(code, sourceLanguage, sourceVersion, targetVersion, preserveComments, modernizationLevel), 6);
  }

  /** Reads the code back out of a refactor prompt. */
  function RefactorCodeOf(prompt: string, sourceLanguage: string, sourceVersion: string, targetVersion: string,
                          preserveComments: bool, modernizationLevel: string): Option<string>
  {
    var head := RefactorHead(sourceLanguage, sourceVersion, targetVersion, preserveComments, modernizationLevel);
    Between(prompt, Join("\n", head) + "\n", "\n" + Join("\n", RefactorTrailer))
  }

  /** The code is recovered from the refactor prompt. */
  lemma RefactorRoundTrip(code: string, sourceLanguage: string, sourceVersion: string, targetVersion: string,
                          preserveComments: bool, modernizationLevel: string)
    ensures RefactorCodeOf(RefactorPrompt(code, sourceLanguage, sourceVersion, targetVersion, preserveComments, modernizationLevel),
                           sourceLanguage, sourceVersion, targetVersion, preserveComments, modernizationLevel) == Some(code)
  {
    var head := RefactorHead(sourceLanguage, sourceVersion, targetVersion, preserveComments, modernizationLevel);
    BetweenInverse(Join("\n", head) + "\n", code, "\n" + Join("\n", RefactorTrailer));
  }

  /** By default the level reads `MODERATE`. */
  lemma DefaultLevelUpperCased()
    ensures Upper(DefaultModernizationLevel) == "MODERATE"
  {
  }

  // ---------------------------------------------------------------------
  // build_optimizer_prompt

  const OptimizerIntro := "You are an expert algorithm optimization assistant."
  const OpenFence := "\n```"
  const CloseFence := "```\n"
  const AlgorithmTypeLabel := "Algorithm type: "
  const TargetComplexityLabel := "Target complexity: "
  const PleaseProvide := "\nPlease provide:"
  const ItemsOneToThree: seq<string> := [
    "1. The optimized code",
    "2. The time complexity before and after optimization",
    "3. The space complexity before and after optimization"
  ]
  const ExplanationItem := "4. " + "A detailed explanation of the optimizations made"
  const TechniquesItem := "5. " + "A list of the optimization techniques used"
  const OptimizerJsonInstruction := "\nFormat your response as JSON with the following structure:"
  /** The JSON schema of the reply, a triple-quoted text, line by line. */
  const OptimizerSchema :=
    "\n    {"
    + "\n        \"optimized_code\": \"The optimized code\","
    + "\n        \"time_complexity_before\": \"Original time complexity\","
    + "\n        \"time_complexity_after\": \"New time complexity\","
    + "\n        \"space_complexity_before\": \"Original space complexity\","
    + "\n        \"space_complexity_after\": \"New space complexity\","
    + "\n        \"explanation\": \"Detailed explanation of the optimizations\","
    + "\n        \"optimization_techniques\": [\"Technique 1\", \"Technique 2\", ...]"
    + "\n    }"
    + "\n    "

  function OptimizerHead(language: string): seq<string>
  {
    [ OptimizerIntro,
      "Please analyze and optimize the following " + language + " code for better time and space complexity:",
      OpenFence ]
  }

  /** The segments after the code. */
  function OptimizerTail(algorithmType: Option<string>, expectedComplexity: Option<string>,
                         includeExplanation: bool): seq<string>
  {
    [CloseFence]
      + OptionalSegment(AlgorithmTypeLabel, algorithmType)
      + OptionalSegment(TargetComplexityLabel, expectedComplexity)
      + [PleaseProvide] + ItemsOneToThree
      + (if includeExplanation then [ExplanationItem] else [])
      + [TechniquesItem, OptimizerJsonInstruction, OptimizerSchema]
  }

  /** The segment list `build_optimizer_prompt` joins. */
  function OptimizerSegments(code: string, language: string, algorithmType: Option<string>,
                             expectedComplexity: Option<string>, includeExplanation: bool): (r: seq<string>)
    ensures var n := (if Truthy(algorithmType) then 1 else 0) + (if Truthy(expectedComplexity) then 1 else 0);
      && |r| == 12 + n + (if includeExplanation then 1 else 0)
      && r[2] == OpenFence && r[3] == code && r[4] == CloseFence
      // the optional segments sit between the closing fence and "Please provide:"
      && (Truthy(algorithmType) <==> AlgorithmTypeLabel <= r[5])
      && (Truthy(algorithmType) ==> r[5] == AlgorithmTypeLabel + algorithmType.value)
      && (var i := if Truthy(algorithmType) then 6 else 5;
          && (Truthy(expectedComplexity) <==> TargetComplexityLabel <= r[i])
          && (Truthy(expectedComplexity) ==> r[i] == TargetComplexityLabel + expectedComplexity.value))
      && r[5 + n] == PleaseProvide
      && (forall k :: 0 <= k < 3 ==> r[6 + n + k] == ItemsOneToThree[k])
      // item 4 only on request, item 5 always
      && (r[9 + n] == ExplanationItem <==> includeExplanation)
      && r[|r| - 3] == TechniquesItem
      && r[|r| - 2] == OptimizerJsonInstruction && r[|r| - 1] == OptimizerSchema
  {
    OptimizerLabelsDistinct(if expectedComplexity.Some? then expectedComplexity.value else "");
    OptimizerHead(language) + [code] + OptimizerTail(algorithmType, expectedComplexity, includeExplanation)
  }

  /** The segments that may follow the closing fence start differently, and items 4 and 5 differ. */
  lemma OptimizerLabelsDistinct(ec: string)
    ensures !(AlgorithmTypeLabel <= TargetComplexityLabel + ec)
    ensures !(AlgorithmTypeLabel <= PleaseProvide)
    ensures !(TargetComplexityLabel <= PleaseProvide)
    ensures ExplanationItem != TechniquesItem
  {
    DiffersAt(AlgorithmTypeLabel, TargetComplexityLabel + ec, 0);
    DiffersAt(AlgorithmTypeLabel, PleaseProvide, 0);
    DiffersAt(TargetComplexityLabel, PleaseProvide, 0);
    assert ExplanationItem[0] != TechniquesItem[0];
  }

  /** `build_optimizer_prompt`: the code sits verbatim on lines of its own, between the joined head and tail. */
  function OptimizerPrompt(code: string, language: string, algorithmType: Option<string>,
                           expectedComplexity: Option<string>, includeExplanation: bool): (r: string)
    ensures r == (Join("\n", OptimizerHead(language)) + "\n") + code
                 + ("\n" + Join("\n", OptimizerTail(algorithmType, expectedComplexity, includeExplanation)))
  {
    JoinAround("\n", OptimizerHead(language), code, OptimizerTail(algorithmType, expectedComplexity, includeExplanation));
    Join("\n", OptimizerSegments(code, language, algorithmType, expectedComplexity, includeExplanation))
  }

  /** Reads the code back out of an optimizer prompt. */
  function OptimizerCodeOf(prompt: string, language: string, algorithmType: Option<string>,
                           expectedComplexity: Option<string>, includeExplanation: bool): Option<string>
  {
    Between(prompt, Join("\n", OptimizerHead(language)) + "\n",
            "\n" + Join("\n", OptimizerTail(algorithmType, expectedComplexity, includeExplanation)))
  }

  /** The code is recovered from the optimizer prompt. */
  lemma OptimizerRoundTrip(code: string, language: string, algorithmType: Option<string>,
                           expectedComplexity: Option<string>, includeExplanation: bool)
    ensures OptimizerCodeOf(OptimizerPrompt(code, language, algorithmType, expectedComplexity, includeExplanation),
                            language, algorithmType, expectedComplexity, includeExplanation) == Some(code)
  {
    var head := OptimizerHead(language);
    var tail := OptimizerTail(algorithmType, expectedComplexity, includeExplanation);
    BetweenInverse(Join("\n", head) + "\n", code, "\n" + Join("\n", tail));
  }

  /** The code is fenced: the opening fence ends the line before it and the closing fence starts the line after it. */
  lemma OptimizerCodeFenced(code: string, language: string, algorithmType: Option<string>,
                            expectedComplexity: Option<string>, includeExplanation: bool)
    ensures Contains(OptimizerPrompt(code, language, algorithmType, expectedComplexity, includeExplanation),
                     OpenFence + "\n" + code + "\n" + CloseFence)
  {
    JoinWindow("\n", OptimizerSegments(code, language, algorithmType, expectedComplexity, includeExplanation), 3);
  }
}
