/**
 * The code editor's keyboard handling and gutter. Pressing Tab replaces the
 * selection with two spaces and puts the caret just after them; any other
 * key leaves the text alone. The gutter numbers the lines of the text
 * from 1.
 *
 * The selection bounds are the text area's `selectionStart` and
 * `selectionEnd`. They are taken as arbitrary integers and pass through
 * JavaScript's `String.prototype.substring`, which clamps and orders its
 * arguments.
 */
module CodeEditor {
  import opened Lines

  /** `i` clamped into `[0, n]`. */
  function Clamp(i: int, n: nat): (r: nat)
    ensures r <= n
    ensures 0 <= i <= n ==> r == i
    ensures i < 0 ==> r == 0
    ensures i > n ==> r == n
  {
    if i < 0 then 0 else if i > n then n else i
  }

  /**
   * JavaScript `s.substring(a, b)`: both bounds are clamped into the string,
   * and the smaller one is taken as the start.
   */
  function Substring(s: string, a: int, b: int): (r: string)
    ensures |r| <= |s|
    ensures 0 <= a <= b <= |s| ==> r == s[a..b]
  {
    var lo, hi := Clamp(a, |s|), Clamp(b, |s|);
    if lo <= hi then s[lo..hi] else s[hi..lo]
  }

  /** `substring` does not care in which order its bounds come. */
  lemma SubstringSymmetric(s: string, a: int, b: int)
    ensures Substring(s, a, b) == Substring(s, b, a)
  {
  }

  /** The text and caret position after a key press. */
  datatype Edit = Edit(value: string, caret: int)

  const Indent := "  "

  /**
   * `handleKeyDown` as intended: the edit a key press causes, if any, with
   * the caret just after the inserted spaces.
   */
  function KeyDown(key: string, value: string, selectionStart: int, selectionEnd: int): (r: Option<Edit>)
    ensures r.Some? <==> key == "Tab"
    ensures r.Some? ==> r.value.caret == selectionStart + 2
  {
    if key == "Tab" then
      Some(Edit(Substring(value, 0, selectionStart) + Indent + Substring(value, selectionEnd, |value|),
                selectionStart + 2))
    else None
  }

  /**
   * What the handler as written leaves behind: the new text, and the caret
   * position its timer callback manages to set, if any. The callback reads
   * the event's `currentTarget`, which React clears once the handler has
   * returned, so the assignment throws and no caret is ever set.
   */
  datatype Effect = Effect(value: string, caretSet: Option<int>)

  /** `handleKeyDown` as written, caret included. */
  function KeyDownAsWritten(key: string, value: string, selectionStart: int, selectionEnd: int): (r: Option<Effect>)
    ensures r.Some? <==> key == "Tab"
    ensures r.Some? ==> r.value.caretSet.None?
    ensures r.Some? ==> r.value.value == KeyDown(key, value, selectionStart, selectionEnd).value.value
  {
    if key == "Tab" then
      Some(Effect(Substring(value, 0, selectionStart) + Indent + Substring(value, selectionEnd, |value|), None))
    else None
  }

  /**
   * The caret is lost: for `"ab"` with the caret between the letters, the
   * intended edit puts it after the two spaces at 3, while the handler as
   * written sets no caret at all.
   */
  lemma CaretLostAsWritten()
    ensures KeyDown("Tab", "ab", 1, 1) == Some(Edit("a  b", 3))
    ensures KeyDownAsWritten("Tab", "ab", 1, 1) == Some(Effect("a  b", None))
  {
    assert Substring("ab", 0, 1) == "a";
    assert Substring("ab", 1, 2) == "b";
    assert "a" + Indent + "b" == "a  b";
  }

  /** A selection the text area can report: ordered and within the text. */
  predicate ValidSelection(value: string, selectionStart: int, selectionEnd: int)
  {
    0 <= selectionStart <= selectionEnd <= |value|
  }

  /**
   * On Tab the selection is replaced by two spaces: what precedes it and
   * what follows it are kept, the length changes by two minus the
   * selection's length, and the caret lands just after the spaces.
   */
  lemma TabReplacesSelection(value: string, selectionStart: int, selectionEnd: int)
    requires ValidSelection(value, selectionStart, selectionEnd)
    ensures var e := KeyDown("Tab", value, selectionStart, selectionEnd).value;
      && e.value == value[..selectionStart] + Indent + value[selectionEnd..]
      && |e.value| == |value| - (selectionEnd - selectionStart) + 2
      && e.value[..selectionStart] == value[..selectionStart]
      && e.value[selectionStart + 2..] == value[selectionEnd..]
      && 0 <= e.caret <= |e.value|
      && e.value[e.caret - 2..e.caret] == Indent
  {
    var e := KeyDown("Tab", value, selectionStart, selectionEnd).value;
    assert Substring(value, 0, selectionStart) == value[..selectionStart];
    assert Substring(value, selectionEnd, |value|) == value[selectionEnd..];
    assert e.value[..selectionStart] == value[..selectionStart];
    assert e.value[selectionStart..selectionStart + 2] == Indent;
    assert e.value[selectionStart + 2..] == value[selectionEnd..];
  }

  /**
   * Removing the two spaces just before the caret gives the text with the
   * selection cut out; for an empty selection it gives the text back.
   */
  lemma TabThenDeleteIndent(value: string, selectionStart: int, selectionEnd: int)
    requires ValidSelection(value, selectionStart, selectionEnd)
    ensures var e := KeyDown("Tab", value, selectionStart, selectionEnd).value;
      e.value[..e.caret - 2] + e.value[e.caret..] == value[..selectionStart] + value[selectionEnd..]
    ensures selectionStart == selectionEnd ==>
      var e := KeyDown("Tab", value, selectionStart, selectionEnd).value;
      e.value[..e.caret - 2] + e.value[e.caret..] == value
  {
    TabReplacesSelection(value, selectionStart, selectionEnd);
    if selectionStart == selectionEnd {
      assert value[..selectionStart] + value[selectionEnd..] == value;
    }
  }

  /** Any key but Tab causes no edit. */
  lemma OtherKeysIgnored(key: string, value: string, selectionStart: int, selectionEnd: int)
    requires key != "Tab"
    ensures KeyDown(key, value, selectionStart, selectionEnd) == None
  {
  }

  /**
   * Even a selection outside the text yields a splice of the text: `substring`
   * clamps a start past the end to the end and a negative end to zero.
   */
  lemma TabClampsSelection(value: string, selectionStart: int, selectionEnd: int)
    ensures var e := KeyDown("Tab", value, selectionStart, selectionEnd).value;
      exists i, j :: 0 <= i <= |value| && 0 <= j <= |value|
        && e.value == value[..i] + Indent + value[j..]
  {
    var i, j := Clamp(selectionStart, |value|), Clamp(selectionEnd, |value|);
    assert Substring(value, 0, selectionStart) == value[..i];
    assert Substring(value, selectionEnd, |value|) == value[j..];
  }

  /** The gutter: the numbers `1 .. k` for a text of `k` lines. */
  function LineNumbers(value: string): (r: seq<int>)
    ensures |r| == Count(value, '\n') + 1
    ensures forall i :: 0 <= i < |r| ==> r[i] == i + 1
  {
    SplitLength(value);
    seq(|Split(value)|, i => i + 1)
  }

  /** The gutter is never empty: even the empty text has line 1. */
  lemma EmptyTextHasOneLine()
    ensures LineNumbers("") == [1]
  {
  }

  /** The gutter numbers the lines the text joins together. */
  lemma {:induction false} LineNumbersOfLines(lines: seq<string>)
    requires |lines| >= 1
    requires forall k :: 0 <= k < |lines| ==> IsLine(lines[k])
    ensures |LineNumbers(Join("\n", lines))| == |lines|
  {
    SplitJoin(lines);
    SplitLength(Join("\n", lines));
  }

  /**
   * On Tab the gutter loses one line for each line feed in the replaced
   * selection, and keeps its length when the selection holds none.
   */
  lemma {:induction false} TabLineCount(value: string, selectionStart: int, selectionEnd: int)
    requires ValidSelection(value, selectionStart, selectionEnd)
    ensures var e := KeyDown("Tab", value, selectionStart, selectionEnd).value;
      |LineNumbers(e.value)| == |LineNumbers(value)| - Count(value[selectionStart..selectionEnd], '\n')
  {
    TabReplacesSelection(value, selectionStart, selectionEnd);
    var pre, sel, post := value[..selectionStart], value[selectionStart..selectionEnd], value[selectionEnd..];
    assert value == pre + sel + post;
    CountAppend(pre + sel, post, '\n');
    CountAppend(pre, sel, '\n');
    CountAppend(pre + Indent, post, '\n');
    CountAppend(pre, Indent, '\n');
    assert Count(Indent, '\n') == 0;
  }
}
