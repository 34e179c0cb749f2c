# DevLift suggestion and diff engine, modelled in Dafny

This project models the parts of DevLift that hold real logic, together with
the prompt texts the backend sends to the language model:

- **DiffView** (`diff_view.dfy`). `computeDiff` is the greedy two-cursor line
  aligner with a one-line lookahead. It appears twice: as a recursive function
  `Diff` that follows the loop's branches, and as a method `ComputeDiff` that
  keeps the loop. The model also covers the gutter marker of each rendered row.
- **DsaOptimizer** (`dsa_optimizer.dfy`). `detectLanguage` and
  `analyzeAlgorithm` form the heuristic complexity analyser. It covers the
  `for\s*\(` global-match count, the five substring signals, the time and
  space decision chains, the language hints and the exponentiation hint.
- **ContextStore** (`context_store.dfy`). This is the zustand store: theme
  and AI-settings merges, the four UI flags, and the suggestion lifecycle
  (add, remove, accept, reject, undo, redo). Every action is a pure state
  transition, and an invariant holds over every run of actions.
- **PromptBuilder** (`prompt_builder.py` as `prompt_builder.dfy`). The three
  builders are modelled as segment lists and as the `"\n".join` of those
  lists. For each builder, a decoder reads the free-text argument back out of
  the prompt.
- **CodeEditor** (`code_editor.dfy`). Tab replaces the selection with two
  spaces, using JavaScript `substring` clamping. The gutter numbers the text's
  lines.
- **Lines** (`lines.dfy`). Shared text helpers:
  - JavaScript `includes`;
  - `split('\n')` and `"\n".join`, with their round trip;
  - counting characters;
  - extracting a text between a known prefix and suffix;
  - ASCII upper-casing.

The store's undo and redo are not those of a conventional undo stack. In
three places the model follows `context.ts` as written:

- `acceptSuggestion` moves the cursor up by one from wherever it stood. It
  does not move the cursor to the last history entry. After an undo,
  therefore, the next undo returns an older entry (`UndoAfterAcceptAfterUndo`).
- `redoLastSuggestion` appends the history entry to the pending list again.
  It does not remove it from there.
- Pending ids are therefore not unique in reachable states. Accept, then
  undo, then redo leaves the suggestion in the pending list twice
  (`RedoAfterUndoDuplicates`).

## Model

| member | source | states |
|---|---|---|
| Lines.Contains | frontend/src/components/DSAOptimizer.tsx:7-9 | `includes` scans every start position; a pattern is found only if it is no longer than the text |
| Lines.ContainsIff | frontend/src/components/DSAOptimizer.tsx:7-9 | `includes` holds exactly when the pattern occurs at some position |
| Lines.SplitLength | frontend/src/components/CodeEditor.tsx:26 | `split('\n')` yields one more piece than the text has line feeds |
| Lines.Split | frontend/src/components/DiffView.tsx:19-20 | `split('\n')` yields at least one piece, and no piece holds a line feed |
| Lines.Join | backend/prompt_builder.py:44 | `"\n".join` of a non-empty list starts with its first element |
| Lines.JoinSplit | frontend/src/components/DiffView.tsx:19-20 | Joining the pieces of `split('\n')` with line feeds rebuilds the text |
| Lines.SplitJoin | backend/prompt_builder.py:44 | Splitting a line-feed join of lines gives back the lines |
| Lines.Upper | backend/prompt_builder.py:71 | ASCII upper-casing, standing for `.upper()`: the length is kept, each ASCII lower-case letter becomes its capital, every other character is kept, and no ASCII lower-case letter is left |
| DiffView.Diff | frontend/src/components/DiffView.tsx:26-52 | The script the loop emits for the lines ahead of its cursors, branch for branch; it is never longer than both inputs together |
| DiffView.RoundTrip | frontend/src/components/DiffView.tsx:26-52 | The unchanged and removed lines of the script are exactly the original lines, and the unchanged and added lines exactly the modified lines |
| DiffView.LengthBounds | frontend/src/components/DiffView.tsx:26-52 | The script has at least as many entries as the longer input and at most as many as both inputs together |
| DiffView.CommonPrefix | frontend/src/components/DiffView.tsx:33-36 | A common leading run of lines is reported unchanged, line for line, ahead of the script for the rest |
| DiffView.Identity | frontend/src/components/DiffView.tsx:33-36 | Comparing a snippet with itself gives one unchanged entry per line |
| DiffView.OriginalExhausted | frontend/src/components/DiffView.tsx:27-29 | Once the original is used up, every remaining modified line is added |
| DiffView.ModifiedExhausted | frontend/src/components/DiffView.tsx:30-32 | Once the modified lines are used up, every remaining original line is removed |
| DiffView.UnchangedIsCommon | frontend/src/components/DiffView.tsx:33-36 | An unchanged entry is the original line at the original cursor and the modified line at the modified cursor, where each cursor counts the lines consumed before the entry |
| DiffView.DeletionResynchronises | frontend/src/components/DiffView.tsx:39-41 | When the next original line equals the current modified line, the current original line is removed and the match follows as unchanged; this check wins over the insertion check |
| DiffView.InsertionResynchronises | frontend/src/components/DiffView.tsx:42-44 | When only the insertion lookahead matches, the current modified line is added and the match follows as unchanged |
| DiffView.SubstitutionPairs | frontend/src/components/DiffView.tsx:45-49 | When neither lookahead matches, a removal immediately followed by an addition is emitted and both cursors advance |
| DiffView.ComputeDiff | frontend/src/components/DiffView.tsx:23-54 | The two-cursor loop computes the recursive script, and replays to both inputs |
| DiffView.ComputeDiffOfTexts | frontend/src/components/DiffView.tsx:18-55 | On whole texts split on line feeds, the kept sides joined with line feeds give back each text, and the script has between 1 and (line feeds + 2) entries |
| DiffView.EmptyTexts | frontend/src/components/DiffView.tsx:19-20 | Two empty texts compare as a single unchanged empty line |
| DiffView.Marker | frontend/src/components/DiffView.tsx:132 | The row marker is `+` exactly for added lines, `-` exactly for removed lines and a space exactly for unchanged lines |
| DiffView.MarkerInjective | frontend/src/components/DiffView.tsx:132 | Distinct kinds render distinct markers |
| DiffView.Render | frontend/src/components/DiffView.tsx:131-134 | A row is the kind's marker followed by the line, one character longer than the line |
| DiffView.RenderInjective | frontend/src/components/DiffView.tsx:131-134 | Distinct entries render distinct rows, so a row tells its kind and its line |
| DsaOptimizer.LanguageTag | frontend/src/components/DSAOptimizer.tsx:7-10 | Each reported language tag is a non-empty word of lower-case ASCII letters |
| DsaOptimizer.LanguageTagInjective | frontend/src/components/DSAOptimizer.tsx:7-10 | Distinct languages report distinct tags |
| DsaOptimizer.DetectLanguage | frontend/src/components/DSAOptimizer.tsx:6-11 | Java exactly when a class marker occurs; Python exactly when there is no Java marker and a Python marker occurs; JavaScript and unknown likewise down the chain |
| DsaOptimizer.JavaMarkerWins | frontend/src/components/DSAOptimizer.tsx:7 | Any text containing `public class` or `private class` is Java, whatever else it holds |
| DsaOptimizer.PythonMarkerOutranksJavaScript | frontend/src/components/DSAOptimizer.tsx:8-9 | Any text containing `def ` or `import ` is Java or Python, never JavaScript |
| DsaOptimizer.CountLoopOpeners | frontend/src/components/DSAOptimizer.tsx:25 | The global `for\s*\(` scan resumes after each match, so each counted match uses at least four characters of the remaining text |
| DsaOptimizer.CountAtLeastTwo | frontend/src/components/DSAOptimizer.tsx:25 | The global `for\s*\(` scan finds more than one match exactly when the pattern matches at two different positions |
| DsaOptimizer.MatchesDisjoint | frontend/src/components/DSAOptimizer.tsx:25 | Two matches of `for\s*\(` never overlap |
| DsaOptimizer.ExtractSignals | frontend/src/components/DSAOptimizer.tsx:25-29 | `nestedLoops` holds exactly when `for\s*\(` matches at two different positions; the other four signals are defined as the source's substring tests, with `&&` binding tighter than `\|\|` in the recursion test |
| DsaOptimizer.SortingIsSortCall | frontend/src/components/DSAOptimizer.tsx:27 | The sorting signal holds exactly when `sort(` occurs, since `.sort(` contains it |
| DsaOptimizer.TimeComplexity | frontend/src/components/DSAOptimizer.tsx:31-47 | The first signal in the chain decides the class, each class exactly under its guard; only the first three branches add a suggestion, and the class is never constant |
| DsaOptimizer.SpaceComplexity | frontend/src/components/DSAOptimizer.tsx:49-58 | Space is linear exactly for memo tables or recursion, and constant otherwise |
| DsaOptimizer.LanguageSuggestions | frontend/src/components/DSAOptimizer.tsx:60-82 | At most two hints, none for an unknown language, and all of them language hints |
| DsaOptimizer.HintsOfLanguage | frontend/src/components/DSAOptimizer.tsx:60-82 | Each language hint appears exactly when its language is detected and its idiom occurs |
| DsaOptimizer.AnalyzeAlgorithm | frontend/src/components/DSAOptimizer.tsx:13-95 | The record carries the detected language, the chain's time class and the space class; one issue and one alternative exactly under recursion; at most four suggestions, the last being the power hint exactly when `Math.pow(` or `**` occurs |
| DsaOptimizer.ComplexityNotes | frontend/src/components/DSAOptimizer.tsx:32-40 | The complexity suggestion is the one of the deciding branch of the time chain |
| DsaOptimizer.LanguageAndPowerHints | frontend/src/components/DSAOptimizer.tsx:60-92 | Language hints appear only for the detected language, each exactly when its idiom occurs; the power hint appears exactly when an exponentiation does |
| DsaOptimizer.ComplexityNoteFirst | frontend/src/components/DSAOptimizer.tsx:31-92 | The complexity suggestion, when there is one, comes before every other suggestion |
| DsaOptimizer.TwoLoopsAreQuadratic | frontend/src/components/DSAOptimizer.tsx:25-34 | Two loop openers make the time quadratic, with the nested-loop advice first, whatever else the text holds |
| DsaOptimizer.TwoLoopsAndNothingElse | frontend/src/components/DSAOptimizer.tsx:13-95 | A text with two loop openers and no other signal, marker or exponentiation gives quadratic time, constant space and exactly the nested-loop advice |
| DsaOptimizer.QuietByAlphabet | frontend/src/components/DSAOptimizer.tsx:7-9 | A text without the characters `u d m c p l M *` contains none of the recursion, dynamic-programming, language or exponentiation markers the analyser tests for |
| DsaOptimizer.TwoLoopsInPlainText | frontend/src/components/DSAOptimizer.tsx:13-95 | Two bare `for(` loops in such a text give quadratic time, constant space, unknown language and the nested-loop advice alone |
| DsaOptimizer.NestedLoopsWithSort | frontend/src/components/DSAOptimizer.tsx:25-40 | Two loops followed by a sort call are quadratic although sorting is seen, and the sorting advice is not given |
| DsaOptimizer.EmptyCode | frontend/src/components/DSAOptimizer.tsx:13-95 | The empty text gives unknown language, linear time, constant space and no advice |
| DsaOptimizer.LabelInjective | frontend/src/components/DSAOptimizer.tsx:33-57 | Distinct complexity classes display distinct labels |
| ContextStore.MergeColors | frontend/src/services/context.ts:109-111 | Every key the patch supplies takes the patch's value, and every other key keeps its value |
| ContextStore.MergeSettings | frontend/src/services/context.ts:119-121 | The same shallow merge for AI settings, where `focusAreas` is replaced whole |
| ContextStore.MergeColorsLaws | frontend/src/services/context.ts:109-111 | Merging is idempotent, the empty patch changes nothing, and two merges are one merge with the later patch winning key by key |
| ContextStore.Without | frontend/src/services/context.ts:131 | `filter(s => s.id !== id)`: the entries without the id, each kept, in their original relative order, and the length drops by the number of entries with the id |
| ContextStore.FilterIsUnique | frontend/src/services/context.ts:131 | Any order-preserving selection that drops exactly the entries with the id is the filter, so the contract of `Without` determines it |
| ContextStore.Find | frontend/src/services/context.ts:135 | `find(s => s.id === id)`: nothing exactly when no entry has the id, otherwise the first entry with it |
| ContextStore.SetThemeColors | frontend/src/services/context.ts:109-111 | Only the colours change, to the merge |
| ContextStore.ToggleDarkMode | frontend/src/services/context.ts:113-115 | Only the dark-mode flag changes, and it flips |
| ContextStore.SetCustomTheme | frontend/src/services/context.ts:117 | Only the custom-theme flag changes, to the argument |
| ContextStore.SetAISettings | frontend/src/services/context.ts:119-121 | Only the AI settings change, to the merge |
| ContextStore.AddSuggestion | frontend/src/services/context.ts:123-128 | The draft is appended with an id that is in neither the pending list nor the history; the history and the cursor are kept |
| ContextStore.RemoveSuggestion | frontend/src/services/context.ts:130-132 | The pending list becomes the filter: exactly the entries with the id go, the rest keep their relative order, the count drops by their number, an unknown id changes nothing, and nothing else changes |
| ContextStore.RejectSuggestion | frontend/src/services/context.ts:145-147 | Rejecting is the same filter as removing |
| ContextStore.AcceptSuggestion | frontend/src/services/context.ts:134-143 | An unknown id changes nothing; otherwise the entries with the id leave the pending list, the first of them is appended to the history, and the cursor moves up by one |
| ContextStore.UndoLastSuggestion | frontend/src/services/context.ts:149-157 | Below zero, nothing changes; otherwise the entry under the cursor is appended to the pending list, the cursor moves down, and the history is kept |
| ContextStore.RedoLastSuggestion | frontend/src/services/context.ts:159-167 | On or past the last entry, nothing changes; otherwise the next entry is appended to the pending list and the cursor moves up |
| ContextStore.SetProcessing | frontend/src/services/context.ts:169 | Only the processing flag changes, to the argument |
| ContextStore.SetProcessingProgress | frontend/src/services/context.ts:171 | Only the progress changes, to the argument |
| ContextStore.ToggleDiffView | frontend/src/services/context.ts:173-175 | Only the diff-view flag changes, and it flips |
| ContextStore.ToggleSuggestionsPanel | frontend/src/services/context.ts:177-179 | Only the panel flag changes, and it flips |
| ContextStore.TogglesAreInvolutions | frontend/src/services/context.ts:113-115 | Toggling twice gives back the state, for each of the three toggles |
| ContextStore.InitialValid | frontend/src/services/context.ts:95-106 | The initial state has the cursor at -1 within range, and no ids issued |
| ContextStore.StepPreservesValid | frontend/src/services/context.ts:108-179 | Every action keeps the cursor in [-1, history length - 1] and every id one the counter issued; the history only grows, and it grows exactly on an accept of a pending id |
| ContextStore.ReachableStatesAreValid | frontend/src/services/context.ts:95-179 | Every run of actions from the initial state ends with the cursor inside the history or at -1 |
| ContextStore.AcceptThenUndo | frontend/src/services/context.ts:134-157 | Accepting and then undoing from the top of the history restores the cursor and the pending entries as a multiset, with the accepted entry moved to the end |
| ContextStore.RedoAfterUndoDuplicates | frontend/src/services/context.ts:134-167 | Accept, then undo, then redo leaves the suggestion's id twice in the pending list |
| ContextStore.UndoAfterAcceptAfterUndo | frontend/src/services/context.ts:134-157 | After an undo, accepting and undoing again brings back the history entry above the cursor, not the suggestion just accepted |
| PromptBuilder.StackTraceSegments | backend/prompt_builder.py:19-42 | The six-line header, then the trace, then the language and framework segments exactly when truthy, in that order, then the JSON instruction and the schema |
| PromptBuilder.StackTracePrompt | backend/prompt_builder.py:19-44 | The joined prompt is the joined header, a line feed, the stack trace verbatim, a line feed and the joined tail |
| PromptBuilder.StackTraceRoundTrip | backend/prompt_builder.py:19-44 | The stack trace is read back verbatim from the joined prompt, given the optional arguments |
| PromptBuilder.StackTracePromptInjective | backend/prompt_builder.py:19-44 | With the optional arguments fixed, different traces give different prompts |
| PromptBuilder.StackTraceEndsWithSchema | backend/prompt_builder.py:35-44 | The prompt ends with the JSON instruction and the schema on lines of their own |
| PromptBuilder.StackTraceLanguageIndistinct | backend/prompt_builder.py:26-33 | A trace whose last line reads like the language segment gives the same prompt as the shorter trace with that language given |
| PromptBuilder.RefactorSegments | backend/prompt_builder.py:68-87 | Twelve segments; the code between two fence segments; `Yes` exactly when comments are preserved; the level upper-cased letter by letter with no lower-case letter left; then the fixed trailer |
| PromptBuilder.RefactorPrompt | backend/prompt_builder.py:68-89 | The joined prompt is the joined head, a line feed, the code verbatim, a line feed and the joined trailer |
| PromptBuilder.RefactorCodeFenced | backend/prompt_builder.py:73-89 | The code appears verbatim on its own lines between two fence lines |
| PromptBuilder.RefactorRoundTrip | backend/prompt_builder.py:68-89 | The code is read back verbatim from the joined prompt |
| PromptBuilder.DefaultLevelUpperCased | backend/prompt_builder.py:52 | The default level reads `MODERATE` |
| PromptBuilder.OptimizerSegments | backend/prompt_builder.py:111-146 | The code between the opening and closing fences; each optional caption exactly when truthy; the three fixed items; item 4 exactly when an explanation is asked for; then item 5, the JSON instruction and the schema |
| PromptBuilder.OptimizerPrompt | backend/prompt_builder.py:111-148 | The joined prompt is the joined head, a line feed, the code verbatim, a line feed and the joined tail |
| PromptBuilder.OptimizerRoundTrip | backend/prompt_builder.py:111-148 | The code is read back verbatim from the joined prompt |
| PromptBuilder.OptimizerCodeFenced | backend/prompt_builder.py:114-116 | The code appears verbatim on its own lines between the opening and closing fences |
| CodeEditor.KeyDown | frontend/src/components/CodeEditor.tsx:33-45 | The handler as intended: an edit happens exactly on Tab, and it puts the caret two past the selection start (see Findings for the caret as written) |
| CodeEditor.KeyDownAsWritten | frontend/src/components/CodeEditor.tsx:33-45 | The handler as written: the same text on Tab and no edit otherwise, but no caret is set |
| CodeEditor.CaretLostAsWritten | frontend/src/components/CodeEditor.tsx:41-43 | For `"ab"` with the caret at 1, the intended caret is 3, while the handler as written sets none |
| CodeEditor.Substring | frontend/src/components/CodeEditor.tsx:38 | JavaScript `substring`: never longer than the string, and the plain slice when the bounds are ordered and in range |
| CodeEditor.TabReplacesSelection | frontend/src/components/CodeEditor.tsx:36-42 | On Tab the selection becomes two spaces: the text before and after it is kept, the length changes by two minus the selection length, and two spaces sit before the caret |
| CodeEditor.TabThenDeleteIndent | frontend/src/components/CodeEditor.tsx:38-42 | Deleting the two characters before the caret gives the text with the selection cut out, and gives the text back for an empty selection |
| CodeEditor.TabClampsSelection | frontend/src/components/CodeEditor.tsx:38 | A selection outside the text still gives a splice of the text, because `substring` clamps its bounds |
| CodeEditor.OtherKeysIgnored | frontend/src/components/CodeEditor.tsx:34 | Any key but Tab causes no edit |
| CodeEditor.SubstringSymmetric | frontend/src/components/CodeEditor.tsx:38 | `substring` gives the same result whichever order its bounds come in |
| CodeEditor.LineNumbers | frontend/src/components/CodeEditor.tsx:25-27 | The gutter has one more number than the text has line feeds, numbered from 1 |
| CodeEditor.EmptyTextHasOneLine | frontend/src/components/CodeEditor.tsx:26 | The empty text still shows line 1 |
| CodeEditor.LineNumbersOfLines | frontend/src/components/CodeEditor.tsx:26 | Joining k lines gives a gutter of k numbers |
| CodeEditor.TabLineCount | frontend/src/components/CodeEditor.tsx:26-38 | On Tab the gutter loses one number per line feed in the replaced selection |

## Left out

- Suggestion ids come from `crypto.randomUUID()`. They are modelled by a counter in the state, so freshness is a theorem here, while in the source it is a probabilistic assumption.
- An explicit `undefined` value in a `Partial<…>` patch is not modelled. Such a value would overwrite the key with `undefined`; a patch key here is either supplied with a value or left out.
- The `persist` middleware and its `partialize` (context.ts:181-189) are storage I/O and are not modelled.
- `processingProgress` and a suggestion's `lineNumber` are JavaScript `number` values, which are doubles. The model narrows them to unbounded integers, so fractions, infinities and NaN are not modelled. The store stores them unchanged in both cases.
- ContextStore.UndoLastSuggestion: requires the cursor to be below the history length. A cursor past the end would make the source append `undefined`. `ReachableStatesAreValid` shows that no run of actions reaches such a state.
- ContextStore.RedoLastSuggestion: requires the cursor to be at least -1. This is unreachable in the same way.
- Lines.Upper: models Python's `.upper()` for ASCII letters only. Python's full Unicode case mapping, where one character may become several (`'ß'.upper() == 'SS'`), is not modelled, so the length-preserving contract holds for the model only.
- PromptBuilder.RefactorSegments: the modernization level is upper-cased with `Lines.Upper`, so it inherits the ASCII-only limitation.
- Strings are sequences of characters. JavaScript's UTF-16 code units, and so the caret arithmetic on astral characters, are not modelled.
- CodeEditor.KeyDown: `e.preventDefault()` and the deferred `setTimeout` are browser events and are not modelled. The model returns the caret the handler intends. What the handler as written does with the caret is recorded under Findings.
- The React rendering of DiffView, DSAOptimizer and CodeEditor is not modelled, apart from the gutter marker and the line numbers. Neither is the call to `analyzeWithAI` (a network call) or authentication.
- DsaOptimizer: each fixed advice sentence of the analyser is modelled as one constructor of the `Advice` enumeration. The sentences themselves are not carried as strings.
- The optional `docsLink` of a suggestion is carried as data only.

## Findings

| source | as written | input that shows it | evidently intended | confidence | as-written member | corrected member |
|---|---|---|---|---|---|---|
| frontend/src/components/CodeEditor.tsx:41-43 | The `setTimeout` callback assigns the caret through `e.currentTarget`. React sets that to `null` once the handler returns, so the assignment throws and the caret is never moved to `start + 2`. | Tab on `"ab"` with the caret at 1: the text becomes `"a  b"`, but the caret is not set to 3 | The caret lands just after the two inserted spaces, at `start + 2` | not executed; follows from React resetting `currentTarget` after dispatch | CodeEditor.KeyDownAsWritten, CodeEditor.CaretLostAsWritten | CodeEditor.KeyDown, CodeEditor.TabReplacesSelection |
