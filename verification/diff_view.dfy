/**
 * The line aligner of the diff view: a greedy two-cursor scan over the
 * original and the modified lines with a one-line lookahead. It is not a
 * minimal edit script; what it does guarantee is that the script replays
 * to both inputs.
 */
module DiffView {
  import opened Lines

  datatype Kind = Added | Removed | Unchanged

  datatype DiffEntry = DiffEntry(kind: Kind, line: string)

  /** Every line of `lines`, in order, tagged with the same kind. */
  function Tag(kind: Kind, lines: seq<string>): (r: seq<DiffEntry>)
    ensures |r| == |lines|
    ensures forall k :: 0 <= k < |r| ==> r[k] == DiffEntry(kind, lines[k])
  {
    seq(|lines|, k requires 0 <= k < |lines| => DiffEntry(kind, lines[k]))
  }

  /**
   * The script the scan emits for the lines still ahead of its cursors:
   * `a` is what remains of the original, `b` what remains of the modified.
   * The branches are those of the loop, in the loop's order.
   */
  function Diff(a: seq<string>, b: seq<string>): (r: seq<DiffEntry>)
    ensures |r| <= |a| + |b|
    decreases |a| + |b|
  {
    if |a| == 0 && |b| == 0 then []
    else if |a| == 0 then [DiffEntry(Added, b[0])] + Diff(a, b[1..])
    else if |b| == 0 then [DiffEntry(Removed, a[0])] + Diff(a[1..], b)
    else if a[0] == b[0] then [DiffEntry(Unchanged, a[0])] + Diff(a[1..], b[1..])
    else if 1 < |a| && a[1] == b[0] then [DiffEntry(Removed, a[0])] + Diff(a[1..], b)
    else if 1 < |b| && a[0] == b[1] then [DiffEntry(Added, b[0])] + Diff(a, b[1..])
    else [DiffEntry(Removed, a[0]), DiffEntry(Added, b[0])] + Diff(a[1..], b[1..])
  }

  /** The lines a script keeps from the original: unchanged and removed. */
  function OldSide(d: seq<DiffEntry>): seq<string>
  {
    if |d| == 0 then []
    else (if d[0].kind == Added then [] else [d[0].line]) + OldSide(d[1..])
  }

  /** The lines a script produces: unchanged and added. */
  function NewSide(d: seq<DiffEntry>): seq<string>
  {
    if |d| == 0 then []
    else (if d[0].kind == Removed then [] else [d[0].line]) + NewSide(d[1..])
  }

  /** The gutter marker the view renders in front of each line. */
  function Marker(k: Kind): (c: char)
    ensures c == '+' <==> k == Added
    ensures c == '-' <==> k == Removed
    ensures c == ' ' <==> k == Unchanged
  {
    match k
    case Added => '+'
    case Removed => '-'
    case Unchanged => ' '
  }

  /** One rendered row: the marker followed by the line. */
  function Render(e: DiffEntry): (row: string)
    ensures |row| == |e.line| + 1 && row[1..] == e.line
    ensures row[0] == Marker(e.kind)
  {
    [Marker(e.kind)] + e.line
  }

  /** A rendered row tells its entry: distinct entries render distinct rows. */
  lemma RenderInjective(e1: DiffEntry, e2: DiffEntry)
    ensures Render(e1) == Render(e2) <==> e1 == e2
  {
    if Render(e1) == Render(e2) {
      MarkerInjective(e1.kind, e2.kind);
      assert e1.line == Render(e1)[1..];
    }
  }

  /** Distinct kinds render distinct markers, so a row tells its kind. */
  lemma MarkerInjective(k1: Kind, k2: Kind)
    ensures Marker(k1) == Marker(k2) <==> k1 == k2
  {
  }

  lemma {:induction false} OldSideAppend(x: seq<DiffEntry>, y: seq<DiffEntry>)
    ensures OldSide(x + y) == OldSide(x) + OldSide(y)
  {
    if |x| > 0 {
      assert (x + y)[1..] == x[1..] + y;
      assert OldSide(x + y) == (if x[0].kind == Added then [] else [x[0].line]) + OldSide(x[1..] + y);
      OldSideAppend(x[1..], y);
    } else {
      assert x + y == y;
    }
  }

  lemma {:induction false} NewSideAppend(x: seq<DiffEntry>, y: seq<DiffEntry>)
    ensures NewSide(x + y) == NewSide(x) + NewSide(y)
  {
    if |x| > 0 {
      assert (x + y)[1..] == x[1..] + y;
      assert NewSide(x + y) == (if x[0].kind == Removed then [] else [x[0].line]) + NewSide(x[1..] + y);
      NewSideAppend(x[1..], y);
    } else {
      assert x + y == y;
    }
  }

  lemma {:induction false} SidesBounded(d: seq<DiffEntry>)
    ensures |OldSide(d)| <= |d| && |NewSide(d)| <= |d|
  {
    if |d| > 0 {
      SidesBounded(d[1..]);
    }
  }

  /**
   * Round trip: the unchanged and removed lines of the script are exactly
   * the original, and the unchanged and added lines exactly the modified.
   */
  lemma RoundTrip(a: seq<string>, b: seq<string>)
    ensures OldSide(Diff(a, b)) == a
    ensures NewSide(Diff(a, b)) == b
  {
    OldSideOfDiff(a, b);
    NewSideOfDiff(a, b);
  }

  /** The unchanged and removed lines of the script are the original. */
  lemma {:induction false} OldSideOfDiff(a: seq<string>, b: seq<string>)
    ensures OldSide(Diff(a, b)) == a
    decreases |a| + |b|
  {
    if |a| == 0 && |b| == 0 {
    } else {
      var step: (seq<DiffEntry>, seq<string>, seq<string>) :=
        if |a| == 0 then ([DiffEntry(Added, b[0])], a, b[1..])
        else if |b| == 0 then ([DiffEntry(Removed, a[0])], a[1..], b)
        else if a[0] == b[0] then ([DiffEntry(Unchanged, a[0])], a[1..], b[1..])
        else if 1 < |a| && a[1] == b[0] then ([DiffEntry(Removed, a[0])], a[1..], b)
        else if 1 < |b| && a[0] == b[1] then ([DiffEntry(Added, b[0])], a, b[1..])
        else ([DiffEntry(Removed, a[0]), DiffEntry(Added, b[0])], a[1..], b[1..]);
      var head, a', b' := step.0, step.1, step.2;
      assert Diff(a, b) == head + Diff(a', b');
      OldSideOfDiff(a', b');
      OldSideAppend(head, Diff(a', b'));
      if |a| > 0 {
        assert a == [a[0]] + a[1..];
      }
    }
  }

  /** The unchanged and added lines of the script are the modified text. */
  lemma {:induction false} NewSideOfDiff(a: seq<string>, b: seq<string>)
    ensures NewSide(Diff(a, b)) == b
    decreases |a| + |b|
  {
    if |a| == 0 && |b| == 0 {
    } else {
      var step: (seq<DiffEntry>, seq<string>, seq<string>) :=
        if |a| == 0 then ([DiffEntry(Added, b[0])], a, b[1..])
        else if |b| == 0 then ([DiffEntry(Removed, a[0])], a[1..], b)
        else if a[0] == b[0] then ([DiffEntry(Unchanged, a[0])], a[1..], b[1..])
        else if 1 < |a| && a[1] == b[0] then ([DiffEntry(Removed, a[0])], a[1..], b)
        else if 1 < |b| && a[0] == b[1] then ([DiffEntry(Added, b[0])], a, b[1..])
        else ([DiffEntry(Removed, a[0]), DiffEntry(Added, b[0])], a[1..], b[1..]);
      var head, a', b' := step.0, step.1, step.2;
      assert Diff(a, b) == head + Diff(a', b');
      NewSideOfDiff(a', b');
      NewSideAppend(head, Diff(a', b'));
      if |b| > 0 {
        assert b == [b[0]] + b[1..];
      }
    }
  }

  /** The length of the script lies between the longer input and the sum. */
  lemma LengthBounds(a: seq<string>, b: seq<string>)
    ensures |a| <= |Diff(a, b)| && |b| <= |Diff(a, b)|
    ensures |Diff(a, b)| <= |a| + |b|
  {
    RoundTrip(a, b);
    SidesBounded(Diff(a, b));
  }

  /** A common prefix is reported unchanged, line for line, before the rest. */
  lemma {:induction false} CommonPrefix(p: seq<string>, a: seq<string>, b: seq<string>)
    ensures Diff(p + a, p + b) == Tag(Unchanged, p) + Diff(a, b)
  {
    if |p| > 0 {
      CommonPrefix(p[1..], a, b);
      assert (p + a)[1..] == p[1..] + a;
      assert (p + b)[1..] == p[1..] + b;
      assert Tag(Unchanged, p) == [DiffEntry(Unchanged, p[0])] + Tag(Unchanged, p[1..]);
    } else {
      assert p + a == a && p + b == b;
    }
  }

  /** Comparing a snippet with itself yields one unchanged entry per line. */
  lemma Identity(a: seq<string>)
    ensures Diff(a, a) == Tag(Unchanged, a)
  {
    CommonPrefix(a, [], []);
    assert a + [] == a;
  }

  /** Once the original is exhausted every remaining line is added. */
  lemma {:induction false} OriginalExhausted(b: seq<string>)
    ensures Diff([], b) == Tag(Added, b)
  {
    if |b| > 0 {
      OriginalExhausted(b[1..]);
      assert Tag(Added, b) == [DiffEntry(Added, b[0])] + Tag(Added, b[1..]);
    }
  }

  /** Once the modified lines are exhausted every remaining line is removed. */
  lemma {:induction false} ModifiedExhausted(a: seq<string>)
    ensures Diff(a, []) == Tag(Removed, a)
  {
    if |a| > 0 {
      ModifiedExhausted(a[1..]);
      assert Tag(Removed, a) == [DiffEntry(Removed, a[0])] + Tag(Removed, a[1..]);
    }
  }

  /**
   * An unchanged entry stands for one line common to both inputs: its text
   * is the original line at the original cursor and the modified line at
   * the modified cursor, the cursors being the lines consumed before it.
   */
  lemma UnchangedIsCommon(a: seq<string>, b: seq<string>, k: nat)
    requires k < |Diff(a, b)| && Diff(a, b)[k].kind == Unchanged
    ensures |OldSide(Diff(a, b)[..k])| < |a| && |NewSide(Diff(a, b)[..k])| < |b|
    ensures Diff(a, b)[k].line == a[|OldSide(Diff(a, b)[..k])|]
    ensures Diff(a, b)[k].line == b[|NewSide(Diff(a, b)[..k])|]
  {
    var d := Diff(a, b);
    RoundTrip(a, b);
    assert d == d[..k] + [d[k]] + d[k + 1..];
    OldSideAppend(d[..k] + [d[k]], d[k + 1..]);
    OldSideAppend(d[..k], [d[k]]);
    NewSideAppend(d[..k] + [d[k]], d[k + 1..]);
    NewSideAppend(d[..k], [d[k]]);
    assert OldSide([d[k]]) == [d[k].line];
    assert NewSide([d[k]]) == [d[k].line];
  }

  /**
   * Lookahead for a deletion: when the next original line matches the
   * current modified line, the current original line is removed and the
   * scan resynchronises on the match. This is tried before the insertion
   * check, so it wins when both lookaheads match.
   */
  lemma DeletionResynchronises(a: seq<string>, b: seq<string>)
    requires 1 < |a| && 0 < |b| && a[0] != b[0] && a[1] == b[0]
    ensures |Diff(a, b)| >= 2
    ensures Diff(a, b)[0] == DiffEntry(Removed, a[0])
    ensures Diff(a, b)[1] == DiffEntry(Unchanged, b[0])
  {
    assert Diff(a, b) == [DiffEntry(Removed, a[0])] + Diff(a[1..], b);
    assert a[1..][0] == b[0];
  }

  /**
   * Lookahead for an insertion: when the deletion check fails and the
   * current original line matches the next modified line, the current
   * modified line is added and the scan resynchronises on the match.
   */
  lemma InsertionResynchronises(a: seq<string>, b: seq<string>)
    requires 0 < |a| && 1 < |b| && a[0] != b[0] && a[0] == b[1]
    requires !(1 < |a| && a[1] == b[0])
    ensures |Diff(a, b)| >= 2
    ensures Diff(a, b)[0] == DiffEntry(Added, b[0])
    ensures Diff(a, b)[1] == DiffEntry(Unchanged, a[0])
  {
    assert Diff(a, b) == [DiffEntry(Added, b[0])] + Diff(a, b[1..]);
    assert b[1..][0] == a[0];
  }

  /**
   * Substitution: when neither lookahead matches, the removal of the
   * original line comes immediately before the addition of the modified
   * line, and both cursors move on.
   */
  lemma SubstitutionPairs(a: seq<string>, b: seq<string>)
    requires 0 < |a| && 0 < |b| && a[0] != b[0]
    requires !(1 < |a| && a[1] == b[0]) && !(1 < |b| && a[0] == b[1])
    ensures Diff(a, b)[..2] == [DiffEntry(Removed, a[0]), DiffEntry(Added, b[0])]
    ensures Diff(a, b)[2..] == Diff(a[1..], b[1..])
  {
  }

  lemma Advance(before: seq<DiffEntry>, emitted: seq<DiffEntry>,
                a: seq<string>, b: seq<string>, a': seq<string>, b': seq<string>)
    requires Diff(a, b) == emitted + Diff(a', b')
    ensures before + Diff(a, b) == (before + emitted) + Diff(a', b')
  {
  }

  /**
   * `computeDiff` over line sequences, as the source's loop: two cursors,
   * each iteration emitting one or two entries and advancing at least one
   * cursor.
   */
  method ComputeDiff(original: seq<string>, modified: seq<string>) returns (diff: seq<DiffEntry>)
    ensures diff == Diff(original, modified)
    ensures OldSide(diff) == original && NewSide(diff) == modified
  {
    var i, j := 0, 0;
    diff := [];
    while i < |original| || j < |modified|
      invariant 0 <= i <= |original| && 0 <= j <= |modified|
      invariant diff + Diff(original[i..], modified[j..]) == Diff(original, modified)
      decreases |original| - i + |modified| - j
    {
      ghost var a, b := original[i..], modified[j..];
      ghost var before := diff;
      if i >= |original| {
        assert Diff(a, b) == [DiffEntry(Added, b[0])] + Diff(a, modified[j + 1..]) by {
          assert b[1..] == modified[j + 1..];
        }
        Advance(diff, [DiffEntry(Added, b[0])], a, b, a, modified[j + 1..]);
        diff := diff + [DiffEntry(Added, modified[j])];
        j := j + 1;
      } else if j >= |modified| {
        assert Diff(a, b) == [DiffEntry(Removed, a[0])] + Diff(original[i + 1..], b) by {
          assert a[1..] == original[i + 1..];
        }
        Advance(diff, [DiffEntry(Removed, a[0])], a, b, original[i + 1..], b);
        diff := diff + [DiffEntry(Removed, original[i])];
        i := i + 1;
      } else if original[i] == modified[j] {
        assert Diff(a, b) == [DiffEntry(Unchanged, a[0])] + Diff(original[i + 1..], modified[j + 1..]) by {
          assert a[1..] == original[i + 1..] && b[1..] == modified[j + 1..];
        }
        Advance(diff, [DiffEntry(Unchanged, a[0])], a, b, original[i + 1..], modified[j + 1..]);
        diff := diff + [DiffEntry(Unchanged, original[i])];
        i := i + 1;
        j := j + 1;
      } else if i + 1 < |original| && original[i + 1] == modified[j] {
        assert Diff(a, b) == [DiffEntry(Removed, a[0])] + Diff(original[i + 1..], b) by {
          assert a[1..] == original[i + 1..] && a[1] == original[i + 1];
        }
        Advance(diff, [DiffEntry(Removed, a[0])], a, b, original[i + 1..], b);
        diff := diff + [DiffEntry(Removed, original[i])];
        i := i + 1;
      } else if j + 1 < |modified| && original[i] == modified[j + 1] {
        assert Diff(a, b) == [DiffEntry(Added, b[0])] + Diff(a, modified[j + 1..]) by {
          assert b[1..] == modified[j + 1..] && b[1] == modified[j + 1];
          assert !(1 < |a| && a[1] == b[0]);
        }
        Advance(diff, [DiffEntry(Added, b[0])], a, b, a, modified[j + 1..]);
        diff := diff + [DiffEntry(Added, modified[j])];
        j := j + 1;
      } else {
        assert Diff(a, b) == [DiffEntry(Removed, a[0]), DiffEntry(Added, b[0])]
                             + Diff(original[i + 1..], modified[j + 1..]) by {
          assert a[1..] == original[i + 1..] && b[1..] == modified[j + 1..];
          assert !(1 < |a| && a[1] == b[0]) && !(1 < |b| && a[0] == b[1]);
        }
        Advance(diff, [DiffEntry(Removed, a[0]), DiffEntry(Added, b[0])], a, b, original[i + 1..], modified[j + 1..]);
        diff := diff + [DiffEntry(Removed, original[i])];
        diff := diff + [DiffEntry(Added, modified[j])];
        assert diff == before + [DiffEntry(Removed, a[0]), DiffEntry(Added, b[0])];
        i := i + 1;
        j := j + 1;
      }
    }
    assert original[i..] == [] && modified[j..] == [];
    RoundTrip(original, modified);
  }

  /**
   * The component's entry point on whole texts: both are split on line
   * feeds first, so the script rejoined with line feeds gives back each
   * text, and even two empty texts compare as one unchanged empty line.
   */
  method ComputeDiffOfTexts(originalCode: string, modifiedCode: string) returns (diff: seq<DiffEntry>)
    ensures diff == Diff(Split(originalCode), Split(modifiedCode))
    ensures Join("\n", OldSide(diff)) == originalCode
    ensures Join("\n", NewSide(diff)) == modifiedCode
    ensures 1 <= |diff| <= Count(originalCode, '\n') + Count(modifiedCode, '\n') + 2
  {
    diff := ComputeDiff(Split(originalCode), Split(modifiedCode));
    JoinSplit(originalCode);
    JoinSplit(modifiedCode);
    SplitLength(originalCode);
    SplitLength(modifiedCode);
    LengthBounds(Split(originalCode), Split(modifiedCode));
  }

  /** Two empty texts: a single unchanged empty line. */
  lemma EmptyTexts()
    ensures Diff(Split(""), Split("")) == [DiffEntry(Unchanged, "")]
  {
  }
}
