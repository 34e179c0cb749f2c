/**
 * Text primitives shared by the components: substring search with the
 * semantics of JavaScript's `String.prototype.includes`, splitting on a
 * line feed with the semantics of JavaScript's `split('\n')`, joining with
 * a separator as Python's `str.join` does, and ASCII upper-casing.
 *
 * Strings are `seq<char>`; there is no Unicode normalisation and no
 * UTF-16 code-unit view (every pattern the components search for is ASCII).
 */
module Lines {

  datatype Option<+T> = None | Some(value: T)

  /** `pat` occurs in `s` starting at index `i`. */
  predicate OccursAt(s: string, pat: string, i: int)
  {
    0 <= i && i + |pat| <= |s| && s[i..i + |pat|] == pat
  }

  /** JavaScript `s.includes(pat)`: scan every start position left to right. */
  predicate Contains(s: string, pat: string)
    ensures Contains(s, pat) ==> |pat| <= |s|
    decreases |s|
  {
    pat <= s || (|s| > 0 && Contains(s[1..], pat))
  }

  /** `Contains` finds exactly the positions at which the pattern occurs. */
  lemma {:induction false} ContainsIff(s: string, pat: string)
    ensures Contains(s, pat) <==> exists i :: OccursAt(s, pat, i)
    decreases |s|
  {
    if |s| > 0 {
      ContainsIff(s[1..], pat);
    }
    if pat <= s {
      assert OccursAt(s, pat, 0);
    } else if |s| > 0 && Contains(s[1..], pat) {
      var i :| OccursAt(s[1..], pat, i);
      forall k | 0 <= k < |pat| ensures s[i + 1..i + 1 + |pat|][k] == pat[k] {
        assert s[1..][i..i + |pat|][k] == pat[k];
      }
      assert OccursAt(s, pat, i + 1);
    }
    if i :| OccursAt(s, pat, i) {
      if i == 0 {
        assert s[..|pat|] == pat;
      } else {
        assert s[1..][i - 1..i - 1 + |pat|] == s[i..i + |pat|];
        assert OccursAt(s[1..], pat, i - 1);
      }
    }
  }

  /** A pattern placed between any two texts is found. */
  lemma ContainsMiddle(x: string, pat: string, y: string)
    ensures Contains(x + pat + y, pat)
  {
    var s := x + pat + y;
    assert s[|x|..|x| + |pat|] == pat;
    assert OccursAt(s, pat, |x|);
    ContainsIff(s, pat);
  }

  /** Number of occurrences of the character `c` in `s`. */
  function Count(s: string, c: char): nat
  {
    if |s| == 0 then 0 else (if s[0] == c then 1 else 0) + Count(s[1..], c)
  }

  /** Counting distributes over concatenation. */
  lemma {:induction false} CountAppend(a: string, b: string, c: char)
    ensures Count(a + b, c) == Count(a, c) + Count(b, c)
  {
    if |a| > 0 {
      assert (a + b)[1..] == a[1..] + b;
      CountAppend(a[1..], b, c);
    } else {
      assert a + b == b;
    }
  }

  /** A line: a string holding no line feed. */
  predicate IsLine(w: string)
  {
    '\n' !in w
  }

  /**
   * JavaScript `s.split('\n')`: the maximal line-feed-free pieces between
   * the line feeds, so `""` splits to `[""]` and a trailing line feed
   * yields a trailing empty piece.
   */
  function Split(s: string): (r: seq<string>)
    ensures |r| >= 1
    ensures forall k :: 0 <= k < |r| ==> IsLine(r[k])
  {
    if |s| == 0 then [""]
    else
      var rest := Split(s[1..]);
      if s[0] == '\n' then [""] + rest
      else [[s[0]] + rest[0]] + rest[1..]
  }

  /** Python `sep.join(parts)`. */
  function Join(sep: string, parts: seq<string>): (r: string)
    ensures |parts| > 0 ==> parts[0] <= r
  {
    if |parts| == 0 then ""
    else if |parts| == 1 then parts[0]
    else parts[0] + sep + Join(sep, parts[1..])
  }

  /** Splitting yields one more piece than there are line feeds. */
  lemma {:induction false} SplitLength(s: string)
    ensures |Split(s)| == Count(s, '\n') + 1
  {
    if |s| > 0 {
      SplitLength(s[1..]);
    }
  }

  /** Joining the pieces with line feeds rebuilds the text. */
  lemma {:induction false} JoinSplit(s: string)
    ensures Join("\n", Split(s)) == s
  {
    if |s| > 0 {
      JoinSplit(s[1..]);
      var rest := Split(s[1..]);
      if s[0] == '\n' {
        assert ([""] + rest)[1..] == rest;
        assert s == "\n" + s[1..];
      } else {
        var parts := [[s[0]] + rest[0]] + rest[1..];
        if |rest| == 1 {
          assert s == [s[0]] + s[1..];
        } else {
          assert parts[1..] == rest[1..];
          assert Join("\n", rest) == rest[0] + "\n" + Join("\n", rest[1..]);
          assert s == [s[0]] + s[1..];
        }
      }
    }
  }

  lemma {:induction false} SplitLine(w: string)
    requires IsLine(w)
    ensures Split(w) == [w]
  {
    if |w| > 0 {
      assert IsLine(w[1..]);
      SplitLine(w[1..]);
      assert w == [w[0]] + w[1..];
    }
  }

  lemma {:induction false} SplitLineThen(w: string, t: string)
    requires IsLine(w)
    ensures Split(w + "\n" + t) == [w] + Split(t)
  {
    var s := w + "\n" + t;
    if |w| == 0 {
      assert s[1..] == t;
    } else {
      assert IsLine(w[1..]);
      SplitLineThen(w[1..], t);
      assert s[1..] == w[1..] + "\n" + t;
      assert w == [w[0]] + w[1..];
    }
  }

  /** Splitting a join of lines gives back the lines. */
  lemma {:induction false} SplitJoin(lines: seq<string>)
    requires |lines| >= 1
    requires forall k :: 0 <= k < |lines| ==> IsLine(lines[k])
    ensures Split(Join("\n", lines)) == lines
  {
    if |lines| == 1 {
      SplitLine(lines[0]);
    } else {
      SplitJoin(lines[1..]);
      SplitLineThen(lines[0], Join("\n", lines[1..]));
      assert [lines[0]] + lines[1..] == lines;
    }
  }

  /** Joining two non-empty lists is joining their joins. */
  lemma {:induction false} JoinAppend(sep: string, a: seq<string>, b: seq<string>)
    requires |a| >= 1 && |b| >= 1
    ensures Join(sep, a + b) == Join(sep, a) + sep + Join(sep, b)
  {
    if |a| == 1 {
      assert (a + b)[1..] == b;
    } else {
      JoinAppend(sep, a[1..], b);
      assert (a + b)[1..] == a[1..] + b;
    }
  }

  /** A piece placed between two non-empty lists is joined with a separator on each side. */
  lemma JoinAround(sep: string, a: seq<string>, x: string, b: seq<string>)
    requires |a| >= 1 && |b| >= 1
    ensures Join(sep, a + [x] + b) == Join(sep, a) + sep + x + sep + Join(sep, b)
    ensures Join(sep, a + [x] + b) == (Join(sep, a) + sep) + x + (sep + Join(sep, b))
  {
    var j, k := Join(sep, a), Join(sep, b);
    assert Join(sep, a + [x] + b) == (j + sep) + ((x + sep) + k) by {
      assert a + [x] + b == a + ([x] + b);
      JoinAppend(sep, a, [x] + b);
      JoinAppend(sep, [x], b);
    }
    AppendAssoc(j + sep, x + sep, k);
    AppendAssoc(j + sep, x, sep);
    AppendAssoc(j + sep + x, sep, k);
  }

  /** Two neighbouring pieces joined give the same text as one piece holding both and the separator. */
  lemma JoinMerge(sep: string, a: seq<string>, x: string, y: string, b: seq<string>)
    requires |a| >= 1 && |b| >= 1
    ensures Join(sep, a + [x + sep + y] + b) == Join(sep, a + [x, y] + b)
  {
    var j, k, m := Join(sep, a), Join(sep, b), x + sep + y;
    JoinPair(sep, a, x, y, b);
    JoinAround(sep, a, m, b);
    AppendAssoc(j + sep, m + sep, k);
    AppendAssoc(j + sep, m, sep);
  }

  lemma JoinPair(sep: string, a: seq<string>, x: string, y: string, b: seq<string>)
    requires |a| >= 1 && |b| >= 1
    ensures Join(sep, a + [x, y] + b) == (Join(sep, a) + sep) + ((x + sep + y + sep) + Join(sep, b))
  {
    var k := Join(sep, b);
    var c := [x, y] + b;
    assert a + [x, y] + b == a + c;
    JoinAppend(sep, a, c);
    assert c[1..] == [y] + b;
    JoinAppend(sep, [y], b);
    assert Join(sep, c) == (x + sep) + ((y + sep) + k);
    AppendAssoc(x + sep, y + sep, k);
    AppendAssoc(x + sep, y, sep);
  }

  lemma AppendAssoc<T>(p: seq<T>, q: seq<T>, r: seq<T>)
    ensures p + (q + r) == p + q + r
  {
  }

  /** A join ends with its last two pieces and the separators before them. */
  lemma JoinEndsWithLastTwo(sep: string, parts: seq<string>)
    requires |parts| >= 3
    ensures EndsWith(Join(sep, parts), sep + parts[|parts| - 2] + sep + parts[|parts| - 1])
  {
    var n := |parts|;
    var body := parts[..n - 2];
    assert parts == body + [parts[n - 2], parts[n - 1]];
    JoinAppend(sep, body, [parts[n - 2], parts[n - 1]]);
    var tail := sep + parts[n - 2] + sep + parts[n - 1];
    var p := Join(sep, parts);
    assert p == Join(sep, body) + tail;
    assert p[|p| - |tail|..] == tail;
  }

  /** Three neighbouring pieces appear in the join with the separator between them. */
  lemma JoinWindow(sep: string, parts: seq<string>, i: int)
    requires 1 <= i < |parts| - 1
    ensures Contains(Join(sep, parts), parts[i - 1] + sep + parts[i] + sep + parts[i + 1])
  {
    var a, w, b := parts[..i - 1], parts[i - 1..i + 2], parts[i + 2..];
    var x := parts[i - 1] + sep + parts[i] + sep + parts[i + 1];
    assert parts == a + w + b;
    assert Join(sep, w) == x by {
      assert w[1..][1..] == [parts[i + 1]];
      assert Join(sep, w[1..]) == parts[i] + sep + parts[i + 1];
      AppendAssoc(parts[i - 1] + sep, parts[i] + sep, parts[i + 1]);
      AppendAssoc(parts[i - 1] + sep, parts[i], sep);
    }
    var before := if |a| == 0 then "" else Join(sep, a) + sep;
    var after := if |b| == 0 then "" else sep + Join(sep, b);
    assert Join(sep, w + b) == x + after by {
      if |b| > 0 {
        JoinAppend(sep, w, b);
        AppendAssoc(x, sep, Join(sep, b));
      } else {
        assert w + b == w;
      }
    }
    assert Join(sep, parts) == before + (x + after) by {
      if |a| > 0 {
        assert parts == a + (w + b);
        JoinAppend(sep, a, w + b);
        AppendAssoc(Join(sep, a), sep, x + after);
      } else {
        assert parts == w + b;
      }
    }
    AppendAssoc(before, x, after);
    var p := Join(sep, parts);
    assert p[|before|..|before| + |x|] == x;
    assert OccursAt(p, x, |before|);
    ContainsIff(p, x);
  }

  /** `s` ends with `suffix`. */
  predicate EndsWith(s: string, suffix: string)
  {
    |suffix| <= |s| && s[|s| - |suffix|..] == suffix
  }

  /**
   * The text strictly between a known prefix and a known suffix, if `p`
   * carries both without overlap.
   */
  function Between(p: string, prefix: string, suffix: string): (r: Option<string>)
    ensures r.Some? <==> |prefix| + |suffix| <= |p| && prefix <= p && EndsWith(p, suffix)
    ensures r.Some? ==> p == prefix + r.value + suffix
  {
    if |prefix| + |suffix| <= |p| && prefix <= p && EndsWith(p, suffix) then
      assert p == p[..|prefix|] + p[|prefix|..|p| - |suffix|] + p[|p| - |suffix|..];
      Some(p[|prefix|..|p| - |suffix|])
    else None
  }

  /** `Between` takes apart exactly what concatenation put together. */
  lemma BetweenInverse(prefix: string, x: string, suffix: string)
    ensures Between(prefix + x + suffix, prefix, suffix) == Some(x)
  {
    var p := prefix + x + suffix;
    assert p[..|prefix|] == prefix;
    assert p[|p| - |suffix|..] == suffix;
    assert p[|prefix|..|p| - |suffix|] == x;
  }

  /** Python `str.upper()` on ASCII letters. */
  function UpperChar(c: char): (u: char)
    ensures 'a' <= c <= 'z' ==> u as int == c as int - 32
    ensures !('a' <= c <= 'z') ==> u == c
  {
    if 'a' <= c <= 'z' then (c as int - 32) as char else c
  }

  function Upper(s: string): (r: string)
    ensures |r| == |s|
    ensures forall k :: 0 <= k < |s| ==> r[k] == UpperChar(s[k])
    ensures forall k :: 0 <= k < |r| ==> !('a' <= r[k] <= 'z')
  {
    seq(|s|, k requires 0 <= k < |s| => UpperChar(s[k]))
  }
}
