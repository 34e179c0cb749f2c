/**
 * The application context store: theme and AI settings, UI flags, and the
 * suggestion lifecycle (pending suggestions, an append-only history of
 * accepted ones and a cursor into it for undo and redo). Every action is a
 * pure transition from one state to the next.
 *
 * The actions are modelled as the store implements them, which is not an
 * idealised undo stack: accepting advances the cursor by one wherever it
 * stood, and redo appends the history entry to the pending list again.
 */
module ContextStore {
  import opened Lines

  // ---------------------------------------------------------------------
  // Settings records and their partial updates
  // ---------------------------------------------------------------------

  datatype ThemeColors = ThemeColors(
    primary: string, secondary: string, accent: string, background: string, text: string)

  /** A `Partial<ThemeColors>`: `None` is a key the caller left out. */
  datatype ThemeColorsPatch = ThemeColorsPatch(
    primary: Option<string>, secondary: Option<string>, accent: Option<string>,
    background: Option<string>, text: Option<string>)

  datatype Strictness = Conservative | Balanced | Aggressive

  datatype FocusAreas = FocusAreas(
    performance: bool, readability: bool, security: bool, maintainability: bool)

  datatype AISettings = AISettings(
    refactorStrictness: Strictness, focusAreas: FocusAreas, autoSuggest: bool, inlineExplanations: bool)

  /** A `Partial<AISettings>`: shallow, so `focusAreas` comes whole or not at all. */
  datatype AISettingsPatch = AISettingsPatch(
    refactorStrictness: Option<Strictness>, focusAreas: Option<FocusAreas>,
    autoSuggest: Option<bool>, inlineExplanations: Option<bool>)

  /** The value an object spread leaves for one key: the patch's if supplied. */
  function Pick<T>(supplied: Option<T>, current: T): T
  {
    match supplied
    case Some(v) => v
    case None => current
  }

  /** `{ ...colors, ...patch }`. */
  function MergeColors(c: ThemeColors, p: ThemeColorsPatch): (r: ThemeColors)
    ensures p.primary.None? ==> r.primary == c.primary
    ensures p.secondary.None? ==> r.secondary == c.secondary
    ensures p.accent.None? ==> r.accent == c.accent
    ensures p.background.None? ==> r.background == c.background
    ensures p.text.None? ==> r.text == c.text
    ensures p.primary.Some? ==> r.primary == p.primary.value
    ensures p.secondary.Some? ==> r.secondary == p.secondary.value
    ensures p.accent.Some? ==> r.accent == p.accent.value
    ensures p.background.Some? ==> r.background == p.background.value
    ensures p.text.Some? ==> r.text == p.text.value
  {
    ThemeColors(
      Pick(p.primary, c.primary), Pick(p.secondary, c.secondary), Pick(p.accent, c.accent),
      Pick(p.background, c.background), Pick(p.text, c.text))
  }

  /** `{ ...settings, ...patch }`. */
  function MergeSettings(a: AISettings, p: AISettingsPatch): (r: AISettings)
    ensures p.refactorStrictness.None? ==> r.refactorStrictness == a.refactorStrictness
    ensures p.focusAreas.None? ==> r.focusAreas == a.focusAreas
    ensures p.autoSuggest.None? ==> r.autoSuggest == a.autoSuggest
    ensures p.inlineExplanations.None? ==> r.inlineExplanations == a.inlineExplanations
    ensures p.refactorStrictness.Some? ==> r.refactorStrictness == p.refactorStrictness.value
    ensures p.focusAreas.Some? ==> r.focusAreas == p.focusAreas.value
    ensures p.autoSuggest.Some? ==> r.autoSuggest == p.autoSuggest.value
    ensures p.inlineExplanations.Some? ==> r.inlineExplanations == p.inlineExplanations.value
  {
    AISettings(
      Pick(p.refactorStrictness, a.refactorStrictness), Pick(p.focusAreas, a.focusAreas),
      Pick(p.autoSuggest, a.autoSuggest), Pick(p.inlineExplanations, a.inlineExplanations))
  }

  /** Two spreads in a row are one spread of the later patch over the earlier. */
  function ThenColors(p1: ThemeColorsPatch, p2: ThemeColorsPatch): ThemeColorsPatch
  {
    ThemeColorsPatch(
      if p2.primary.Some? then p2.primary else p1.primary,
      if p2.secondary.Some? then p2.secondary else p1.secondary,
      if p2.accent.Some? then p2.accent else p1.accent,
      if p2.background.Some? then p2.background else p1.background,
      if p2.text.Some? then p2.text else p1.text)
  }

  const NoColors := ThemeColorsPatch(None, None, None, None, None)

  /**
   * Merging is idempotent, the empty patch changes nothing, and successive
   * merges compose with the later patch winning key by key.
   */
  lemma MergeColorsLaws(c: ThemeColors, p1: ThemeColorsPatch, p2: ThemeColorsPatch)
    ensures MergeColors(MergeColors(c, p1), p1) == MergeColors(c, p1)
    ensures MergeColors(c, NoColors) == c
    ensures MergeColors(MergeColors(c, p1), p2) == MergeColors(c, ThenColors(p1, p2))
  {
  }

  // ---------------------------------------------------------------------
  // Suggestions
  // ---------------------------------------------------------------------

  datatype SuggestionType = Refactor | Optimization | Bug | Style

  datatype Severity = Info | Warning | Error

  /** What a caller hands to `addSuggestion`: every field but the id. */
  datatype Draft = Draft(
    kind: SuggestionType, message: string, code: string, lineNumber: int,
    severity: Severity, explanation: string, docsLink: Option<string>)

  /**
   * A suggestion is a draft with an id. Ids come from a counter in the state
   * standing for `crypto.randomUUID()`.
   */
  datatype Suggestion = Suggestion(id: nat, draft: Draft)

  /** Some entry of `a` has id `id`. */
  predicate HasId(a: seq<Suggestion>, id: nat)
  {
    exists k :: 0 <= k < |a| && a[k].id == id
  }

  /** How many entries of `a` have id `id`. */
  function CountId(a: seq<Suggestion>, id: nat): (n: nat)
    ensures n <= |a|
  {
    if |a| == 0 then 0 else (if a[0].id == id then 1 else 0) + CountId(a[1..], id)
  }

  /**
   * `r` is `a` with some entries left out: the entries of `r` appear in `a`
   * in the same relative order.
   */
  predicate IsSubsequence(r: seq<Suggestion>, a: seq<Suggestion>)
    decreases |a|
  {
    if |a| == 0 then |r| == 0
    else (|r| > 0 && r[0] == a[0] && IsSubsequence(r[1..], a[1..])) || IsSubsequence(r, a[1..])
  }

  /** `a.filter(s => s.id !== id)`: the entries without the id, in their order. */
  function Without(a: seq<Suggestion>, id: nat): (r: seq<Suggestion>)
    ensures forall x {:trigger x in r} :: x in r <==> x in a && x.id != id
    ensures |r| == |a| - CountId(a, id)
    ensures IsSubsequence(r, a)
  {
    if |a| == 0 then []
    else
      var rest := Without(a[1..], id);
      if a[0].id == id then rest
      else
        assert ([a[0]] + rest)[1..] == rest;
        [a[0]] + rest
  }

  /** The index of the first entry with id `id`, or `|a|` when there is none. */
  function FirstIndex(a: seq<Suggestion>, id: nat): (i: nat)
    ensures i <= |a|
    ensures i < |a| ==> a[i].id == id
    ensures forall m :: 0 <= m < i ==> a[m].id != id
  {
    if |a| == 0 then 0
    else if a[0].id == id then 0
    else 1 + FirstIndex(a[1..], id)
  }

  /** `a.find(s => s.id === id)`: the first entry with that id. */
  function Find(a: seq<Suggestion>, id: nat): (r: Option<Suggestion>)
    ensures r.None? <==> !HasId(a, id)
    ensures r.Some? ==> r.value in a && r.value.id == id
    ensures r.Some? ==> r.value == a[FirstIndex(a, id)]
  {
    var i := FirstIndex(a, id);
    if i < |a| then Some(a[i]) else None
  }

  /** An order-preserving selection of entries without the id keeps at most the entries without it. */
  lemma {:induction false} SubsequenceWithoutIdBound(r: seq<Suggestion>, a: seq<Suggestion>, id: nat)
    requires IsSubsequence(r, a)
    requires forall k :: 0 <= k < |r| ==> r[k].id != id
    ensures |r| <= |a| - CountId(a, id)
    decreases |a|
  {
    if |a| > 0 {
      if |r| > 0 && r[0] == a[0] && IsSubsequence(r[1..], a[1..]) {
        SubsequenceWithoutIdBound(r[1..], a[1..], id);
      } else {
        SubsequenceWithoutIdBound(r, a[1..], id);
      }
    }
  }

  /**
   * The filter is the only order-preserving selection that drops exactly
   * the entries with the id, so the contract of `Without` determines it.
   */
  lemma {:induction false} FilterIsUnique(r: seq<Suggestion>, a: seq<Suggestion>, id: nat)
    requires IsSubsequence(r, a)
    requires forall k :: 0 <= k < |r| ==> r[k].id != id
    requires |r| == |a| - CountId(a, id)
    ensures r == Without(a, id)
    decreases |a|
  {
    if |a| > 0 {
      if |r| > 0 && r[0] == a[0] && IsSubsequence(r[1..], a[1..]) {
        FilterIsUnique(r[1..], a[1..], id);
        assert r == [r[0]] + r[1..];
      } else {
        SubsequenceWithoutIdBound(r, a[1..], id);
        FilterIsUnique(r, a[1..], id);
      }
    }
  }

  /** Filtering an id that does not occur changes nothing. */
  lemma {:induction false} WithoutAbsent(a: seq<Suggestion>, id: nat)
    ensures !HasId(a, id) ==> Without(a, id) == a
  {
    if |a| > 0 && !HasId(a, id) {
      assert a[0].id != id;
      forall k | 0 <= k < |a[1..]| ensures a[1..][k].id != id {
        assert a[1..][k] == a[k + 1];
      }
      WithoutAbsent(a[1..], id);
      assert a == [a[0]] + a[1..];
    }
  }

  lemma WithoutHasNoId(a: seq<Suggestion>, id: nat)
    ensures !HasId(Without(a, id), id)
  {
    var r := Without(a, id);
    forall k | 0 <= k < |r| ensures r[k].id != id {
      assert r[k] in r;
    }
  }

  /** The counter's next value is on no entry yet. */
  lemma NextIdFresh(s: State)
    ensures IdsIssued(s) ==> !HasId(s.suggestions, s.nextId) && !HasId(s.suggestionHistory, s.nextId)
  {
    if IdsIssued(s) {
      forall k | 0 <= k < |s.suggestions| ensures s.suggestions[k].id != s.nextId {
        assert s.suggestions[k] in s.suggestions;
      }
      forall k | 0 <= k < |s.suggestionHistory| ensures s.suggestionHistory[k].id != s.nextId {
        assert s.suggestionHistory[k] in s.suggestionHistory;
      }
    }
  }

  lemma {:induction false} CountIdAppend(a: seq<Suggestion>, b: seq<Suggestion>, id: nat)
    ensures CountId(a + b, id) == CountId(a, id) + CountId(b, id)
  {
    if |a| == 0 {
      assert a + b == b;
    } else {
      CountIdAppend(a[1..], b, id);
      assert (a + b)[1..] == a[1..] + b;
    }
  }

  lemma {:induction false} CountIdPositive(a: seq<Suggestion>, id: nat)
    ensures CountId(a, id) > 0 <==> HasId(a, id)
  {
    if |a| > 0 {
      CountIdPositive(a[1..], id);
      if HasId(a, id) && a[0].id != id {
        var k :| 0 <= k < |a| && a[k].id == id;
        assert a[1..][k - 1].id == id;
      }
      if HasId(a[1..], id) {
        var k :| 0 <= k < |a[1..]| && a[1..][k].id == id;
        assert a[k + 1].id == id;
      }
    }
  }

  /**
   * When exactly one entry carries the id, filtering it out and appending
   * that entry again gives the same multiset of entries.
   */
  lemma {:induction false} WithoutSingle(a: seq<Suggestion>, id: nat)
    requires CountId(a, id) == 1
    ensures Find(a, id).Some?
    ensures multiset(Without(a, id)) + multiset{Find(a, id).value} == multiset(a)
  {
    CountIdPositive(a, id);
    assert a == [a[0]] + a[1..];
    if a[0].id == id {
      CountIdPositive(a[1..], id);
      WithoutAbsent(a[1..], id);
    } else {
      WithoutSingle(a[1..], id);
    }
  }

  // ---------------------------------------------------------------------
  // The store
  // ---------------------------------------------------------------------

  datatype State = State(
    themeColors: ThemeColors,
    isDarkMode: bool,
    customTheme: bool,
    aiSettings: AISettings,
    suggestions: seq<Suggestion>,
    suggestionHistory: seq<Suggestion>,
    currentSuggestionIndex: int,
    showDiffView: bool,
    showSuggestionsPanel: bool,
    isProcessing: bool,
    processingProgress: int,
    nextId: nat)

  const DefaultThemeColors := ThemeColors("#3b82f6", "#10b981", "#8b5cf6", "#1a1c2e", "#f3f4f6")

  const DefaultAISettings :=
    AISettings(Balanced, FocusAreas(true, true, true, true), autoSuggest := true, inlineExplanations := true)

  const Initial := State(
    themeColors := DefaultThemeColors,
    isDarkMode := true,
    customTheme := false,
    aiSettings := DefaultAISettings,
    suggestions := [],
    suggestionHistory := [],
    currentSuggestionIndex := -1,
    showDiffView := false,
    showSuggestionsPanel := true,
    isProcessing := false,
    processingProgress := 0,
    nextId := 0)

  /** The cursor points into the history, or is -1 when nothing is left to undo. */
  predicate CursorInRange(s: State)
  {
    -1 <= s.currentSuggestionIndex <= |s.suggestionHistory| - 1
  }

  /** Every id handed out so far came from the counter. */
  predicate IdsIssued(s: State)
  {
    && (forall x :: x in s.suggestions ==> x.id < s.nextId)
    && (forall x :: x in s.suggestionHistory ==> x.id < s.nextId)
  }

  predicate Valid(s: State)
  {
    CursorInRange(s) && IdsIssued(s)
  }

  /** The suggestion part of the state is all that differs. */
  predicate OnlySuggestionsDiffer(s: State, r: State)
  {
    r.(suggestions := s.suggestions, suggestionHistory := s.suggestionHistory,
       currentSuggestionIndex := s.currentSuggestionIndex, nextId := s.nextId) == s
  }

  function SetThemeColors(s: State, colors: ThemeColorsPatch): (r: State)
    ensures r.(themeColors := s.themeColors) == s
    ensures r.themeColors == MergeColors(s.themeColors, colors)
  {
    s.(themeColors := MergeColors(s.themeColors, colors))
  }

  function ToggleDarkMode(s: State): (r: State)
    ensures r.isDarkMode != s.isDarkMode
    ensures r.(isDarkMode := s.isDarkMode) == s
  {
    s.(isDarkMode := !s.isDarkMode)
  }

  function SetCustomTheme(s: State, enabled: bool): (r: State)
    ensures r.customTheme == enabled
    ensures r.(customTheme := s.customTheme) == s
  {
    s.(customTheme := enabled)
  }

  function SetAISettings(s: State, settings: AISettingsPatch): (r: State)
    ensures r.(aiSettings := s.aiSettings) == s
    ensures r.aiSettings == MergeSettings(s.aiSettings, settings)
  {
    s.(aiSettings := MergeSettings(s.aiSettings, settings))
  }

  /** `addSuggestion`: the draft with a fresh id goes to the end of the pending list. */
  function AddSuggestion(s: State, draft: Draft): (r: State)
    ensures |r.suggestions| == |s.suggestions| + 1
    ensures r.suggestions[..|s.suggestions|] == s.suggestions
    ensures r.suggestions[|s.suggestions|].draft == draft
    ensures IdsIssued(s) ==>
              !HasId(s.suggestions, r.suggestions[|s.suggestions|].id)
              && !HasId(s.suggestionHistory, r.suggestions[|s.suggestions|].id)
    ensures r.suggestionHistory == s.suggestionHistory
    ensures r.currentSuggestionIndex == s.currentSuggestionIndex
    ensures OnlySuggestionsDiffer(s, r)
  {
    NextIdFresh(s);
    var entry := Suggestion(s.nextId, draft);
    s.(suggestions := s.suggestions + [entry], nextId := s.nextId + 1)
  }

  /** `removeSuggestion`: every pending entry with the id goes, the rest keep their order. */
  function RemoveSuggestion(s: State, id: nat): (r: State)
    ensures r.suggestions == Without(s.suggestions, id)
    ensures IsSubsequence(r.suggestions, s.suggestions)
    ensures !HasId(r.suggestions, id)
    ensures forall x :: x in r.suggestions <==> x in s.suggestions && x.id != id
    ensures |r.suggestions| == |s.suggestions| - CountId(s.suggestions, id)
    ensures !HasId(s.suggestions, id) ==> r == s
    ensures r.(suggestions := s.suggestions) == s
  {
    WithoutAbsent(s.suggestions, id);
    WithoutHasNoId(s.suggestions, id);
    s.(suggestions := Without(s.suggestions, id))
  }

  /** `rejectSuggestion`: the same filter as `removeSuggestion`. */
  function RejectSuggestion(s: State, id: nat): (r: State)
    ensures r == RemoveSuggestion(s, id)
    ensures !HasId(r.suggestions, id)
    ensures !HasId(s.suggestions, id) ==> r == s
  {
    WithoutAbsent(s.suggestions, id);
    WithoutHasNoId(s.suggestions, id);
    s.(suggestions := Without(s.suggestions, id))
  }

  /**
   * `acceptSuggestion`: with an unknown id nothing happens; otherwise every
   * pending entry with the id goes, the first of them is appended to the
   * history, and the cursor moves up by one from wherever it stood.
   */
  function AcceptSuggestion(s: State, id: nat): (r: State)
    ensures !HasId(s.suggestions, id) ==> r == s
    ensures HasId(s.suggestions, id) ==>
              && r.suggestions == Without(s.suggestions, id)
              && r.suggestionHistory == s.suggestionHistory + [Find(s.suggestions, id).value]
              && r.currentSuggestionIndex == s.currentSuggestionIndex + 1
              && r.nextId == s.nextId
    ensures OnlySuggestionsDiffer(s, r)
  {
    match Find(s.suggestions, id)
    case None => s
    case Some(suggestion) =>
      s.(suggestions := Without(s.suggestions, id),
         suggestionHistory := s.suggestionHistory + [suggestion],
         currentSuggestionIndex := s.currentSuggestionIndex + 1)
  }

  /**
   * `undoLastSuggestion`: with the cursor below zero nothing happens;
   * otherwise the history entry under the cursor is appended to the pending
   * list and the cursor moves down. The history itself is kept.
   */
  function UndoLastSuggestion(s: State): (r: State)
    requires s.currentSuggestionIndex < |s.suggestionHistory|
    ensures s.currentSuggestionIndex < 0 ==> r == s
    ensures s.currentSuggestionIndex >= 0 ==>
              && r.suggestions == s.suggestions + [s.suggestionHistory[s.currentSuggestionIndex]]
              && r.currentSuggestionIndex == s.currentSuggestionIndex - 1
    ensures r.suggestionHistory == s.suggestionHistory && r.nextId == s.nextId
    ensures OnlySuggestionsDiffer(s, r)
  {
    if s.currentSuggestionIndex < 0 then s
    else
      var suggestion := s.suggestionHistory[s.currentSuggestionIndex];
      s.(suggestions := s.suggestions + [suggestion],
         currentSuggestionIndex := s.currentSuggestionIndex - 1)
  }

  /**
   * `redoLastSuggestion`: with the cursor on the last history entry (or
   * beyond) nothing happens; otherwise the entry after the cursor is
   * appended to the pending list (not removed from it) and the cursor moves
   * up. The history itself is kept.
   */
  function RedoLastSuggestion(s: State): (r: State)
    requires s.currentSuggestionIndex >= -1
    ensures s.currentSuggestionIndex >= |s.suggestionHistory| - 1 ==> r == s
    ensures s.currentSuggestionIndex < |s.suggestionHistory| - 1 ==>
              && r.suggestions == s.suggestions + [s.suggestionHistory[s.currentSuggestionIndex + 1]]
              && r.currentSuggestionIndex == s.currentSuggestionIndex + 1
    ensures r.suggestionHistory == s.suggestionHistory && r.nextId == s.nextId
    ensures OnlySuggestionsDiffer(s, r)
  {
    if s.currentSuggestionIndex >= |s.suggestionHistory| - 1 then s
    else
      var suggestion := s.suggestionHistory[s.currentSuggestionIndex + 1];
      s.(suggestions := s.suggestions + [suggestion],
         currentSuggestionIndex := s.currentSuggestionIndex + 1)
  }

  function SetProcessing(s: State, isProcessing: bool): (r: State)
    ensures r.isProcessing == isProcessing
    ensures r.(isProcessing := s.isProcessing) == s
  {
    s.(isProcessing := isProcessing)
  }

  function SetProcessingProgress(s: State, progress: int): (r: State)
    ensures r.processingProgress == progress
    ensures r.(processingProgress := s.processingProgress) == s
  {
    s.(processingProgress := progress)
  }

  function ToggleDiffView(s: State): (r: State)
    ensures r.showDiffView != s.showDiffView
    ensures r.(showDiffView := s.showDiffView) == s
  {
    s.(showDiffView := !s.showDiffView)
  }

  function ToggleSuggestionsPanel(s: State): (r: State)
    ensures r.showSuggestionsPanel != s.showSuggestionsPanel
    ensures r.(showSuggestionsPanel := s.showSuggestionsPanel) == s
  {
    s.(showSuggestionsPanel := !s.showSuggestionsPanel)
  }

  /** Each toggle undoes itself. */
  lemma TogglesAreInvolutions(s: State)
    ensures ToggleDarkMode(ToggleDarkMode(s)) == s
    ensures ToggleDiffView(ToggleDiffView(s)) == s
    ensures ToggleSuggestionsPanel(ToggleSuggestionsPanel(s)) == s
  {
  }

  // ---------------------------------------------------------------------
  // Runs of actions
  // ---------------------------------------------------------------------

  datatype Action =
    | SetColors(colors: ThemeColorsPatch)
    | ToggleDark
    | SetCustom(enabled: bool)
    | SetSettings(settings: AISettingsPatch)
    | Add(draft: Draft)
    | Remove(id: nat)
    | Accept(id: nat)
    | Reject(id: nat)
    | Undo
    | Redo
    | SetBusy(busy: bool)
    | SetProgress(progress: int)
    | ToggleDiff
    | TogglePanel

  /** One action applied to a state whose cursor is in range. */
  function Step(s: State, a: Action): State
    requires CursorInRange(s)
  {
    match a
    case SetColors(c) => SetThemeColors(s, c)
    case ToggleDark => ToggleDarkMode(s)
    case SetCustom(e) => SetCustomTheme(s, e)
    case SetSettings(p) => SetAISettings(s, p)
    case Add(d) => AddSuggestion(s, d)
    case Remove(id) => RemoveSuggestion(s, id)
    case Accept(id) => AcceptSuggestion(s, id)
    case Reject(id) => RejectSuggestion(s, id)
    case Undo => UndoLastSuggestion(s)
    case Redo => RedoLastSuggestion(s)
    case SetBusy(b) => SetProcessing(s, b)
    case SetProgress(p) => SetProcessingProgress(s, p)
    case ToggleDiff => ToggleDiffView(s)
    case TogglePanel => ToggleSuggestionsPanel(s)
  }

  lemma InitialValid()
    ensures Valid(Initial)
  {
  }

  /**
   * Every action keeps the cursor within [-1, |history| - 1] and keeps every
   * id one the counter issued. The history only ever grows, and only an
   * accept of a pending id makes it grow.
   */
  lemma StepPreservesValid(s: State, a: Action)
    requires Valid(s)
    ensures Valid(Step(s, a))
    ensures s.suggestionHistory <= Step(s, a).suggestionHistory
    ensures |Step(s, a).suggestionHistory| > |s.suggestionHistory| <==>
              a.Accept? && HasId(s.suggestions, a.id)
  {
    var r := Step(s, a);
    match a
    case Add(d) =>
      forall x | x in r.suggestions ensures x.id < r.nextId {
        if x !in s.suggestions {
          assert x == r.suggestions[|s.suggestions|] by {
            assert r.suggestions == s.suggestions + [r.suggestions[|s.suggestions|]];
          }
        }
      }
    case Accept(id) =>
      if HasId(s.suggestions, id) {
        var x := Find(s.suggestions, id).value;
        assert x in s.suggestions;
      }
    case Undo =>
      if s.currentSuggestionIndex >= 0 {
        assert s.suggestionHistory[s.currentSuggestionIndex] in s.suggestionHistory;
      }
    case Redo =>
      if s.currentSuggestionIndex < |s.suggestionHistory| - 1 {
        assert s.suggestionHistory[s.currentSuggestionIndex + 1] in s.suggestionHistory;
      }
    case _ =>
  }

  /** The state after a run of actions from `s`. */
  function Run(s: State, actions: seq<Action>): State
    requires Valid(s)
    ensures Valid(Run(s, actions))
    decreases |actions|
  {
    if |actions| == 0 then s
    else
      StepPreservesValid(s, actions[0]);
      Run(Step(s, actions[0]), actions[1..])
  }

  /**
   * From the initial state, every run of actions ends in a valid state, and
   * the history at the end extends the history at the start.
   */
  lemma {:induction false} RunKeepsInvariant(s: State, actions: seq<Action>)
    requires Valid(s)
    ensures CursorInRange(Run(s, actions))
    ensures s.suggestionHistory <= Run(s, actions).suggestionHistory
    decreases |actions|
  {
    if |actions| > 0 {
      StepPreservesValid(s, actions[0]);
      RunKeepsInvariant(Step(s, actions[0]), actions[1..]);
    }
  }

  lemma ReachableStatesAreValid(actions: seq<Action>)
    ensures Valid(Run(Initial, actions))
    ensures -1 <= Run(Initial, actions).currentSuggestionIndex <= |Run(Initial, actions).suggestionHistory| - 1
  {
    InitialValid();
    RunKeepsInvariant(Initial, actions);
  }

  // ---------------------------------------------------------------------
  // The lifecycle of one suggestion
  // ---------------------------------------------------------------------

  /**
   * Accept then undo, from a cursor on the last history entry, restores the
   * history and the cursor, and leaves the pending entries the same as a
   * multiset (the accepted one now at the end).
   */
  lemma AcceptThenUndo(s: State, id: nat)
    requires Valid(s) && s.currentSuggestionIndex == |s.suggestionHistory| - 1
    requires CountId(s.suggestions, id) == 1
    ensures var r, x := UndoLastSuggestion(AcceptSuggestion(s, id)), Find(s.suggestions, id);
      && x.Some?
      && r.suggestionHistory == s.suggestionHistory + [x.value]
      && r.currentSuggestionIndex == s.currentSuggestionIndex
      && multiset(r.suggestions) == multiset(s.suggestions)
      && r.suggestions[|r.suggestions| - 1] == x.value
  {
    CountIdPositive(s.suggestions, id);
    WithoutSingle(s.suggestions, id);
  }

  /**
   * Redo re-adds rather than re-removes: accept, undo, redo from a cursor
   * on the last history entry leaves the accepted suggestion twice in the
   * pending list, so pending ids are not unique in reachable states.
   */
  lemma RedoAfterUndoDuplicates(s: State, id: nat)
    requires Valid(s) && s.currentSuggestionIndex == |s.suggestionHistory| - 1
    requires CountId(s.suggestions, id) == 1
    ensures var r := RedoLastSuggestion(UndoLastSuggestion(AcceptSuggestion(s, id)));
      && r.currentSuggestionIndex == |r.suggestionHistory| - 1
      && CountId(r.suggestions, id) == 2
  {
    CountIdPositive(s.suggestions, id);
    var x := Find(s.suggestions, id).value;
    var a := AcceptSuggestion(s, id);
    var u := UndoLastSuggestion(a);
    var r := RedoLastSuggestion(u);
    assert r.suggestions == Without(s.suggestions, id) + [x] + [x];
    CountIdAppend(Without(s.suggestions, id) + [x], [x], id);
    CountIdAppend(Without(s.suggestions, id), [x], id);
    WithoutHasNoId(s.suggestions, id);
    CountIdPositive(Without(s.suggestions, id), id);
  }

  /**
   * After an undo the cursor no longer sits on the last entry, and a new
   * accept moves it up by one only: the next undo brings back an older
   * history entry, not the suggestion just accepted.
   */
  lemma UndoAfterAcceptAfterUndo(s: State, id: nat)
    requires Valid(s) && 0 <= s.currentSuggestionIndex < |s.suggestionHistory| - 1
    requires HasId(s.suggestions, id)
    ensures var r := UndoLastSuggestion(AcceptSuggestion(s, id));
      r.suggestions == Without(s.suggestions, id) + [s.suggestionHistory[s.currentSuggestionIndex + 1]]
  {
  }
}
