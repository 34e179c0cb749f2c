/**
 * The heuristic complexity analyser of the DSA optimiser: a language guess
 * and a decision table over substring-presence signals. It is a pattern
 * matcher over raw text, not a parser, and is modelled with its false
 * positives and false negatives intact.
 */
module DsaOptimizer {
  import opened Lines

  datatype Language = Java | Python | JavaScript | Unknown

  /** The tag the component reports for each language. */
  function LanguageTag(l: Language): (tag: string)
    ensures |tag| > 0
    ensures forall k :: 0 <= k < |tag| ==> 'a' <= tag[k] <= 'z'
  {
    match l
    case Java => "java"
    case Python => "python"
    case JavaScript => "javascript"
    case Unknown => "unknown"
  }

  /** The reported tag determines the language. */
  lemma LanguageTagInjective(l1: Language, l2: Language)
    ensures LanguageTag(l1) == LanguageTag(l2) <==> l1 == l2
  {
    if l1 != l2 {
      assert LanguageTag(l1)[0] != LanguageTag(l2)[0] || |LanguageTag(l1)| != |LanguageTag(l2)|;
    }
  }

  predicate HasJavaMarker(code: string)
  {
    Contains(code, "public class") || Contains(code, "private class")
  }

  predicate HasPythonMarker(code: string)
  {
    Contains(code, "def ") || Contains(code, "import ")
  }

  predicate HasJavaScriptMarker(code: string)
  {
    Contains(code, "function") || Contains(code, "const ") || Contains(code, "let ")
  }

  /** `detectLanguage`: the first rule whose markers occur decides. */
  function DetectLanguage(code: string): (lang: Language)
    ensures lang == Java <==> HasJavaMarker(code)
    ensures lang == Python <==> !HasJavaMarker(code) && HasPythonMarker(code)
    ensures lang == JavaScript <==>
              !HasJavaMarker(code) && !HasPythonMarker(code) && HasJavaScriptMarker(code)
    ensures lang == Unknown <==>
              !HasJavaMarker(code) && !HasPythonMarker(code) && !HasJavaScriptMarker(code)
  {
    if HasJavaMarker(code) then Java
    else if HasPythonMarker(code) then Python
    else if HasJavaScriptMarker(code) then JavaScript
    else Unknown
  }

  /** A class declaration anywhere in the text makes it Java, whatever else it holds. */
  lemma JavaMarkerWins(x: string, y: string)
    ensures DetectLanguage(x + "public class" + y) == Java
    ensures DetectLanguage(x + "private class" + y) == Java
  {
    ContainsMiddle(x, "public class", y);
    ContainsMiddle(x, "private class", y);
  }

  /** A Python marker outranks every JavaScript marker. */
  lemma PythonMarkerOutranksJavaScript(x: string, y: string)
    ensures DetectLanguage(x + "def " + y) in {Java, Python}
    ensures DetectLanguage(x + "import " + y) in {Java, Python}
  {
    ContainsMiddle(x, "def ", y);
    ContainsMiddle(x, "import ", y);
  }

  // ---------------------------------------------------------------------
  // The loop-opener pattern /for\s*\(/g
  // ---------------------------------------------------------------------

  /** The characters ECMAScript's `\s` class matches. */
  predicate IsJsSpace(c: char)
  {
    || c == ' ' || c == '\t' || c == '\n' || c == '\r'
    || c == '\U{000B}' || c == '\U{000C}' || c == '\U{00A0}' || c == '\U{1680}'
    || ('\U{2000}' <= c <= '\U{200A}')
    || c == '\U{2028}' || c == '\U{2029}' || c == '\U{202F}' || c == '\U{205F}'
    || c == '\U{3000}' || c == '\U{FEFF}'
  }

  /** The end of the run of `\s` characters that starts at `k`. */
  function SkipSpaces(s: string, k: nat): (e: nat)
    requires k <= |s|
    ensures k <= e <= |s|
    ensures forall m :: k <= m < e ==> IsJsSpace(s[m])
    ensures e == |s| || !IsJsSpace(s[e])
    decreases |s| - k
  {
    if k < |s| && IsJsSpace(s[k]) then SkipSpaces(s, k + 1) else k
  }

  /**
   * `for`, any run of `\s`, then `(` matches at `p`. Greedy `\s*` loses
   * nothing here: backtracking into the run only offers a space where `(`
   * is needed.
   */
  predicate LoopOpenerAt(s: string, p: nat)
  {
    && p + 3 <= |s| && s[p..p + 3] == "for"
    && SkipSpaces(s, p + 3) < |s| && s[SkipSpaces(s, p + 3)] == '('
  }

  /** Where a match starting at `p` ends (one past its `(`). */
  function MatchEnd(s: string, p: nat): (e: nat)
    requires LoopOpenerAt(s, p)
    ensures p + 4 <= e <= |s|
  {
    SkipSpaces(s, p + 3) + 1
  }

  /**
   * The number of matches of a global regular-expression scan from `from`:
   * find the leftmost match at or after the scan position, count it, and
   * resume at its end.
   */
  function CountLoopOpeners(s: string, from: nat): (n: nat)
    requires from <= |s|
    ensures 4 * n <= |s| - from
    decreases |s| - from
  {
    if from == |s| then 0
    else if LoopOpenerAt(s, from) then 1 + CountLoopOpeners(s, MatchEnd(s, from))
    else CountLoopOpeners(s, from + 1)
  }

  /** Two matches never overlap: a later one starts after the earlier one ends. */
  lemma MatchesDisjoint(s: string, p: nat, q: nat)
    requires LoopOpenerAt(s, p) && LoopOpenerAt(s, q) && p < q
    ensures MatchEnd(s, p) <= q
  {
    assert s[q] == s[q..q + 3][0] == 'f';
    assert s[p + 1] == s[p..p + 3][1] == 'o';
    assert s[p + 2] == s[p..p + 3][2] == 'r';
    assert !IsJsSpace(s[q]);
  }

  lemma {:induction false} CountPositive(s: string, from: nat)
    requires from <= |s|
    ensures CountLoopOpeners(s, from) >= 1 <==> exists p: nat :: from <= p && LoopOpenerAt(s, p)
    decreases |s| - from
  {
    if from == |s| {
    } else if LoopOpenerAt(s, from) {
    } else {
      CountPositive(s, from + 1);
      if p: nat :| from <= p && LoopOpenerAt(s, p) {
        assert from + 1 <= p;
      }
    }
  }

  /**
   * The scan counts at least two matches exactly when the pattern occurs
   * at two different positions, whether the loops are nested or one after
   * the other.
   */
  lemma {:induction false} CountAtLeastTwo(s: string, from: nat)
    requires from <= |s|
    ensures CountLoopOpeners(s, from) >= 2 <==>
            exists p: nat, q: nat :: from <= p < q && LoopOpenerAt(s, p) && LoopOpenerAt(s, q)
    decreases |s| - from
  {
    if from == |s| {
    } else if LoopOpenerAt(s, from) {
      var e := MatchEnd(s, from);
      CountPositive(s, e);
      if q: nat :| e <= q && LoopOpenerAt(s, q) {
        assert from < q;
      }
      if p: nat, q: nat :| from <= p < q && LoopOpenerAt(s, p) && LoopOpenerAt(s, q) {
        if p == from {
          MatchesDisjoint(s, from, q);
        } else {
          MatchesDisjoint(s, from, p);
        }
        assert e <= q;
      }
    } else {
      CountAtLeastTwo(s, from + 1);
      if p: nat, q: nat :| from <= p < q && LoopOpenerAt(s, p) && LoopOpenerAt(s, q) {
        assert from + 1 <= p;
      }
    }
  }

  // ---------------------------------------------------------------------
  // Signals, complexities and messages
  // ---------------------------------------------------------------------

  datatype Signals = Signals(
    nestedLoops: bool,
    hasRecursion: bool,
    hasSorting: bool,
    hasSearching: bool,
    hasDynamicProgramming: bool)

  /**
   * The five structural signals. `&&` binds tighter than `||`, so recursion
   * is either the word `recursive` or all of `function`, `return` and `(`.
   */
  function ExtractSignals(code: string): (sig: Signals)
    ensures sig.nestedLoops <==>
              exists p: nat, q: nat :: p < q && LoopOpenerAt(code, p) && LoopOpenerAt(code, q)
  {
    CountAtLeastTwo(code, 0);
    Signals(
      nestedLoops := CountLoopOpeners(code, 0) > 1,
      hasRecursion := Contains(code, "recursive")
                      || (Contains(code, "function") && Contains(code, "return") && Contains(code, "(")),
      hasSorting := Contains(code, "sort(") || Contains(code, ".sort("),
      hasSearching := Contains(code, "binarySearch") || Contains(code, "indexOf(")
                      || Contains(code, "includes("),
      hasDynamicProgramming := Contains(code, "dp[") || Contains(code, "memo[") || Contains(code, "cache["))
  }

  /** The `.sort(` alternative is subsumed: every `.sort(` contains a `sort(`. */
  lemma SortingIsSortCall(code: string)
    ensures ExtractSignals(code).hasSorting <==> Contains(code, "sort(")
  {
    ContainsIff(code, ".sort(");
    if i :| OccursAt(code, ".sort(", i) {
      assert code[i + 1..i + 6] == code[i..i + 6][1..] == "sort(";
      assert OccursAt(code, "sort(", i + 1);
      ContainsIff(code, "sort(");
    }
  }

  datatype Complexity = Constant | Logarithmic | Linear | Linearithmic | Quadratic | Exponential

  /** The label the component displays for each class. */
  function Label(c: Complexity): string
  {
    match c
    case Constant => "O(1)"
    case Logarithmic => "O(log n)"
    case Linear => "O(n)"
    case Linearithmic => "O(n log n)"
    case Quadratic => "O(n\U{00B2})"
    case Exponential => "O(2\U{207F})"
  }

  lemma LabelInjective(c1: Complexity, c2: Complexity)
    ensures Label(c1) == Label(c2) <==> c1 == c2
  {
    if c1 != c2 {
      assert Label(c1)[2..] != Label(c2)[2..] || |Label(c1)| != |Label(c2)|;
    }
  }

  /**
   * Every piece of advice the analyser can give. Each constructor stands
   * for one fixed sentence of the component (DSAOptimizer.tsx lines 34, 37,
   * 40, 63, 66, 70, 73, 77, 80, 86, 87 and 91).
   */
  datatype Advice =
    | AvoidNestedLoops | UseMemoization | SinglePass
    | LinkedListHint | SpecialisedMapHint
    | ComprehensionHint | EnumerateHint
    | ArrayMethodsHint | MapOrSetHint
    | BitwisePowerHint
    | StackOverflowIssue | IterationAlternative

  datatype TimeVerdict = TimeVerdict(time: Complexity, note: seq<Advice>)

  /**
   * The time-complexity chain: the first signal that holds decides, and
   * only the first three branches add a suggestion.
   */
  function TimeComplexity(sig: Signals): (v: TimeVerdict)
    ensures v.time == Quadratic <==> sig.nestedLoops
    ensures v.time == Exponential <==> !sig.nestedLoops && sig.hasRecursion
    ensures v.time == Linearithmic <==> !sig.nestedLoops && !sig.hasRecursion && sig.hasSorting
    ensures v.time == Logarithmic <==>
              !sig.nestedLoops && !sig.hasRecursion && !sig.hasSorting && sig.hasSearching
    ensures v.time == Linear <==>
              !sig.nestedLoops && !sig.hasRecursion && !sig.hasSorting && !sig.hasSearching
    ensures v.time != Constant
    ensures |v.note| == (if v.time in {Quadratic, Exponential, Linearithmic} then 1 else 0)
  {
    if sig.nestedLoops then TimeVerdict(Quadratic, [AvoidNestedLoops])
    else if sig.hasRecursion then TimeVerdict(Exponential, [UseMemoization])
    else if sig.hasSorting then TimeVerdict(Linearithmic, [SinglePass])
    else if sig.hasSearching then TimeVerdict(Logarithmic, [])
    else if sig.hasDynamicProgramming then TimeVerdict(Linear, [])
    else TimeVerdict(Linear, [])
  }

  /** Space: linear for memo tables or recursion, constant otherwise. */
  function SpaceComplexity(sig: Signals): (c: Complexity)
    ensures c in {Linear, Constant}
    ensures c == Linear <==> sig.hasDynamicProgramming || sig.hasRecursion
  {
    if sig.hasDynamicProgramming then Linear
    else if sig.hasRecursion then Linear
    else if sig.nestedLoops then Constant
    else Constant
  }

  /** The advice that only a detected language brings. */
  predicate IsLanguageHint(m: Advice)
  {
    m in {LinkedListHint, SpecialisedMapHint, ComprehensionHint, EnumerateHint, ArrayMethodsHint, MapOrSetHint}
  }

  /** The suggestions that depend on the detected language. */
  function LanguageSuggestions(lang: Language, code: string): (r: seq<Advice>)
    ensures |r| <= 2
    ensures lang == Unknown ==> r == []
    ensures forall k :: 0 <= k < |r| ==> IsLanguageHint(r[k])
  {
    match lang
    case Java =>
      (if Contains(code, "ArrayList") || Contains(code, "Vector") then [LinkedListHint] else [])
      + (if Contains(code, "HashMap") then [SpecialisedMapHint] else [])
    case Python =>
      (if Contains(code, "list(") then [ComprehensionHint] else [])
      + (if Contains(code, "for x in range(") then [EnumerateHint] else [])
    case JavaScript =>
      (if Contains(code, "for (let i = 0;") then [ArrayMethodsHint] else [])
      + (if Contains(code, "Object.keys(") then [MapOrSetHint] else [])
    case Unknown => []
  }

  predicate HasPower(code: string)
  {
    Contains(code, "Math.pow(") || Contains(code, "**")
  }

  datatype Analysis = Analysis(
    timeComplexity: Complexity,
    spaceComplexity: Complexity,
    optimizationSuggestions: seq<Advice>,
    potentialIssues: seq<Advice>,
    alternativeApproaches: seq<Advice>,
    detectedLanguage: Language)

  /**
   * The record `analyzeAlgorithm` builds once the language, the signals,
   * the language hints and the presence of an exponentiation are known.
   */
  function Assemble(lang: Language, sig: Signals, hints: seq<Advice>, power: bool): Analysis
  {
    var time := TimeComplexity(sig);
    Analysis(
      timeComplexity := time.time,
      spaceComplexity := SpaceComplexity(sig),
      optimizationSuggestions := time.note + hints + (if power then [BitwisePowerHint] else []),
      potentialIssues := if sig.hasRecursion then [StackOverflowIssue] else [],
      alternativeApproaches := if sig.hasRecursion then [IterationAlternative] else [],
      detectedLanguage := lang)
  }

  /** `analyzeAlgorithm`. */
  function AnalyzeAlgorithm(code: string): (r: Analysis)
    ensures r.detectedLanguage == DetectLanguage(code)
    ensures r.timeComplexity == TimeComplexity(ExtractSignals(code)).time
    ensures r.spaceComplexity == Linear <==>
              ExtractSignals(code).hasDynamicProgramming || ExtractSignals(code).hasRecursion
    ensures r.spaceComplexity in {Linear, Constant}
    ensures |r.potentialIssues| == |r.alternativeApproaches| == (if ExtractSignals(code).hasRecursion then 1 else 0)
    ensures ExtractSignals(code).hasRecursion ==>
              r.potentialIssues[0] == StackOverflowIssue && r.alternativeApproaches[0] == IterationAlternative
    ensures |r.optimizationSuggestions| <= 4
    ensures HasPower(code) <==>
              |r.optimizationSuggestions| > 0 && r.optimizationSuggestions[|r.optimizationSuggestions| - 1] == BitwisePowerHint
  {
    var lang := DetectLanguage(code);
    Assemble(lang, ExtractSignals(code), LanguageSuggestions(lang, code), HasPower(code))
  }

  /** The complexity note is the one of the deciding branch of the time chain. */
  lemma ComplexityNotes(code: string)
    ensures var sugs, sig := AnalyzeAlgorithm(code).optimizationSuggestions, ExtractSignals(code);
      && (AvoidNestedLoops in sugs <==> sig.nestedLoops)
      && (UseMemoization in sugs <==> !sig.nestedLoops && sig.hasRecursion)
      && (SinglePass in sugs <==> !sig.nestedLoops && !sig.hasRecursion && sig.hasSorting)
  {
    var lang := DetectLanguage(code);
    var hints := LanguageSuggestions(lang, code);
    AssembledNotes(lang, ExtractSignals(code), hints, HasPower(code));
  }

  lemma AssembledNotes(lang: Language, sig: Signals, hints: seq<Advice>, power: bool)
    requires forall k :: 0 <= k < |hints| ==> IsLanguageHint(hints[k])
    ensures var sugs := Assemble(lang, sig, hints, power).optimizationSuggestions;
      && (AvoidNestedLoops in sugs <==> sig.nestedLoops)
      && (UseMemoization in sugs <==> !sig.nestedLoops && sig.hasRecursion)
      && (SinglePass in sugs <==> !sig.nestedLoops && !sig.hasRecursion && sig.hasSorting)
      && (BitwisePowerHint in sugs <==> power)
      && (forall m :: IsLanguageHint(m) ==> (m in sugs <==> m in hints))
  {
  }

  /**
   * Language hints appear only for the detected language, each exactly when
   * its idiom occurs; the power-of-two hint appears exactly when an
   * exponentiation does.
   */
  lemma LanguageAndPowerHints(code: string)
    ensures var sugs, lang := AnalyzeAlgorithm(code).optimizationSuggestions, DetectLanguage(code);
      && (LinkedListHint in sugs <==>
            lang == Java && (Contains(code, "ArrayList") || Contains(code, "Vector")))
      && (SpecialisedMapHint in sugs <==> lang == Java && Contains(code, "HashMap"))
      && (ComprehensionHint in sugs <==> lang == Python && Contains(code, "list("))
      && (EnumerateHint in sugs <==> lang == Python && Contains(code, "for x in range("))
      && (ArrayMethodsHint in sugs <==> lang == JavaScript && Contains(code, "for (let i = 0;"))
      && (MapOrSetHint in sugs <==> lang == JavaScript && Contains(code, "Object.keys("))
      && (BitwisePowerHint in sugs <==> HasPower(code))
  {
    var lang := DetectLanguage(code);
    var hints := LanguageSuggestions(lang, code);
    HintsOfLanguage(lang, code);
    AssembledNotes(lang, ExtractSignals(code), hints, HasPower(code));
    var sugs := AnalyzeAlgorithm(code).optimizationSuggestions;
    assert sugs == Assemble(lang, ExtractSignals(code), hints, HasPower(code)).optimizationSuggestions;
    assert IsLanguageHint(LinkedListHint) && IsLanguageHint(SpecialisedMapHint);
    assert IsLanguageHint(ComprehensionHint) && IsLanguageHint(EnumerateHint);
    assert IsLanguageHint(ArrayMethodsHint) && IsLanguageHint(MapOrSetHint);
  }

  lemma HintsOfLanguage(lang: Language, code: string)
    ensures var hints := LanguageSuggestions(lang, code);
      && (LinkedListHint in hints <==>
            lang == Java && (Contains(code, "ArrayList") || Contains(code, "Vector")))
      && (SpecialisedMapHint in hints <==> lang == Java && Contains(code, "HashMap"))
      && (ComprehensionHint in hints <==> lang == Python && Contains(code, "list("))
      && (EnumerateHint in hints <==> lang == Python && Contains(code, "for x in range("))
      && (ArrayMethodsHint in hints <==> lang == JavaScript && Contains(code, "for (let i = 0;"))
      && (MapOrSetHint in hints <==> lang == JavaScript && Contains(code, "Object.keys("))
  {
  }

  /**
   * The complexity note, when there is one, comes before every other
   * suggestion.
   */
  lemma ComplexityNoteFirst(code: string)
    ensures var sig, sugs := ExtractSignals(code), AnalyzeAlgorithm(code).optimizationSuggestions;
      && (sig.nestedLoops ==> sugs[0] == AvoidNestedLoops)
      && (!sig.nestedLoops && sig.hasRecursion ==> sugs[0] == UseMemoization)
      && (!sig.nestedLoops && !sig.hasRecursion && sig.hasSorting ==> sugs[0] == SinglePass)
  {
  }

  /**
   * Two loop openers decide quadratic time whatever else the text holds:
   * nested loops outrank recursion, sorting and searching.
   */
  lemma TwoLoopsAreQuadratic(code: string, p: nat, q: nat)
    requires p < q && LoopOpenerAt(code, p) && LoopOpenerAt(code, q)
    ensures AnalyzeAlgorithm(code).timeComplexity == Quadratic
    ensures AnalyzeAlgorithm(code).optimizationSuggestions[0] == AvoidNestedLoops
  {
    ComplexityNoteFirst(code);
  }

  /** The empty text: unknown language, linear time, constant space, no advice. */
  lemma EmptyCode()
    ensures AnalyzeAlgorithm("") == Analysis(Linear, Constant, [], [], [], Unknown)
  {
  }

  /** A pattern with a character the text lacks does not occur in it. */
  lemma MissingCharacter(s: string, pat: string, c: char)
    requires c in pat && c !in s
    ensures !Contains(s, pat)
  {
    ContainsIff(s, pat);
  }

  /** A text that matches no signal but the loops, no language marker and no exponentiation. */
  predicate Quiet(code: string)
  {
    && !Contains(code, "recursive") && !Contains(code, "function")
    && !Contains(code, "dp[") && !Contains(code, "memo[") && !Contains(code, "cache[")
    && !HasJavaMarker(code) && !HasPythonMarker(code) && !HasJavaScriptMarker(code)
    && !HasPower(code)
  }

  /** The text lacks the characters `u d m c p l M *`. */
  predicate Plain(code: string)
  {
    && 'u' !in code && 'd' !in code && 'm' !in code && 'c' !in code
    && 'p' !in code && 'l' !in code && 'M' !in code && '*' !in code
  }

  /** A plain text is quiet. */
  lemma QuietByAlphabet(code: string)
    requires Plain(code)
    ensures Quiet(code)
  {
    MissingCharacter(code, "recursive", 'u');
    MissingCharacter(code, "function", 'u');
    MissingCharacter(code, "dp[", 'd');
    MissingCharacter(code, "memo[", 'm');
    MissingCharacter(code, "cache[", 'c');
    MissingCharacter(code, "public class", 'u');
    MissingCharacter(code, "private class", 'p');
    MissingCharacter(code, "def ", 'd');
    MissingCharacter(code, "import ", 'm');
    MissingCharacter(code, "const ", 'c');
    MissingCharacter(code, "let ", 'l');
    MissingCharacter(code, "Math.pow(", 'M');
    MissingCharacter(code, "**", '*');
  }

  /** A quiet text with two loop openers: quadratic, constant space, one suggestion. */
  lemma TwoLoopsAndNothingElse(code: string, p: nat, q: nat)
    requires p < q && LoopOpenerAt(code, p) && LoopOpenerAt(code, q)
    requires Quiet(code)
    ensures AnalyzeAlgorithm(code) == Analysis(Quadratic, Constant, [AvoidNestedLoops], [], [], Unknown)
  {
    assert ExtractSignals(code).nestedLoops;
  }

  /** `for(` written after any text is a loop opener there. */
  lemma OpenerAfter(x: string, y: string)
    ensures LoopOpenerAt(x + "for(" + y, |x|)
  {
    var s := x + "for(" + y;
    assert s[|x|..|x| + 3] == "for";
    assert s[|x| + 3] == '(';
    assert !IsJsSpace('(');
  }

  /**
   * Two loops with a sort call after them, as in
   * `for(i=0;i<n;i++){for(j=0;j<n;j++){sort(arr)}}`: the loops decide
   * quadratic time although the sort call is seen, and the sorting note
   * gives way to the nested-loop one.
   */
  lemma NestedLoopsWithSort(a: string, b: string, c: string, d: string)
    ensures var code := a + "for(" + b + "for(" + c + "sort(" + d;
      && ExtractSignals(code).hasSorting
      && AnalyzeAlgorithm(code).timeComplexity == Quadratic
      && AnalyzeAlgorithm(code).optimizationSuggestions[0] == AvoidNestedLoops
      && SinglePass !in AnalyzeAlgorithm(code).optimizationSuggestions
  {
    var code := a + "for(" + b + "for(" + c + "sort(" + d;
    var x := a + "for(" + b;
    assert code == a + "for(" + (b + "for(" + c + "sort(" + d);
    OpenerAfter(a, b + "for(" + c + "sort(" + d);
    assert code == x + "for(" + (c + "sort(" + d);
    OpenerAfter(x, c + "sort(" + d);
    TwoLoopsAreQuadratic(code, |a|, |x|);
    ComplexityNotes(code);
    ContainsMiddle(x + "for(" + c, "sort(", d);
  }

  /** Writing `for(` twice into plain text keeps it plain. */
  lemma PlainAroundOpeners(a: string, b: string, c: string)
    requires Plain(a + b + c)
    ensures Plain(a + "for(" + b + "for(" + c)
  {
    assert forall ch :: ch in a + "for(" + b + "for(" + c ==> ch in a + b + c || ch in "for(";
  }

  /**
   * Two bare `for(` loops in text that avoids the characters of every
   * other signal and marker: quadratic time, constant space, unknown
   * language and the nested-loop advice alone.
   */
  lemma TwoLoopsInPlainText(a: string, b: string, c: string)
    requires Plain(a + b + c)
    ensures AnalyzeAlgorithm(a + "for(" + b + "for(" + c)
         == Analysis(Quadratic, Constant, [AvoidNestedLoops], [], [], Unknown)
  {
    var x := a + "for(" + b;
    var code := x + "for(" + c;
    assert code == a + "for(" + (b + "for(" + c);
    OpenerAfter(a, b + "for(" + c);
    OpenerAfter(x, c);
    PlainAroundOpeners(a, b, c);
    QuietByAlphabet(code);
    TwoLoopsAndNothingElse(code, |a|, |x|);
  }

}
