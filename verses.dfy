/**
 * Go's `strings.Split(s, "\n\n")` and `strings.Join(vs, "\n\n")`, which the
 * song service uses to cut a song's text into verses and to glue a page of
 * verses back together (internal/services/song_service.go:62,72).
 */
module Verses {

  /** The verse delimiter: one blank line. */
  const Delimiter: string := "\n\n"

  /** `s` holds the delimiter starting at position `i`. */
  predicate DelimiterAt(s: string, i: int) {
    0 <= i && i + 1 < |s| && s[i] == '\n' && s[i + 1] == '\n'
  }

  predicate ContainsDelimiter(s: string) {
    exists i :: 0 <= i < |s| && DelimiterAt(s, i)
  }

  /** A verse is a piece of text in which no blank line occurs. */
  predicate IsVerse(v: string) {
    !ContainsDelimiter(v)
  }

  predicate EndsWithNewline(v: string) {
    |v| > 0 && v[|v| - 1] == '\n'
  }

  /**
   * The shape of every result of `Split`: at least one piece, no piece holds
   * the delimiter, and no piece but the last ends with a newline (otherwise
   * the leftmost occurrence of "\n\n" would have started one character earlier).
   */
  predicate WellFormed(vs: seq<string>) {
    && |vs| >= 1
    && (forall i :: 0 <= i < |vs| ==> IsVerse(vs[i]))
    && (forall i :: 0 <= i < |vs| - 1 ==> !EndsWithNewline(vs[i]))
  }

  /**
   * `strings.Split(s, "\n\n")`: cut `s` at every occurrence of the delimiter,
   * taking occurrences leftmost first and without overlap. The text is read one
   * character at a time; a delimiter at the front closes an empty piece.
   */
  function Split(s: string): (r: seq<string>)
    ensures |r| >= 1
    ensures r[0] <= s
    ensures |r| >= 2 ==> DelimiterAt(s, |r[0]|)
    ensures WellFormed(r)
    decreases |s|
  {
    if |s| < 2 then
      [s]
    else if s[0] == '\n' && s[1] == '\n' then
      [""] + Split(s[2..])
    else
      var rest := Split(s[1..]);
      var head := [s[0]] + rest[0];
      SplitHead(s, rest[0], |rest| >= 2);
      [head] + rest[1..]
  }

  /**
   * The first piece that `Split` returns for a text not starting with the
   * delimiter is the first character followed by the first piece of the
   * remainder; that piece is again a verse, and if more pieces follow, it
   * does not end with a newline.
   */
  lemma SplitHead(s: string, first: string, more: bool)
    requires |s| >= 2 && !DelimiterAt(s, 0)
    requires IsVerse(first) && first <= s[1..]
    requires more ==> DelimiterAt(s[1..], |first|) && !EndsWithNewline(first)
    ensures IsVerse([s[0]] + first)
    ensures more ==> !EndsWithNewline([s[0]] + first)
  {
    var head := [s[0]] + first;
    forall i | 0 <= i < |head| ensures !DelimiterAt(head, i) {
      if i > 0 {
        assert !DelimiterAt(first, i - 1);
      } else if |head| >= 2 {
        assert head[1] == s[1];
      }
    }
    if more && first == "" {
      assert s[1] == '\n';
    }
  }

  /** `strings.Join(vs, "\n\n")`. */
  function Join(vs: seq<string>): string {
    if |vs| == 0 then ""
    else if |vs| == 1 then vs[0]
    else vs[0] + Delimiter + Join(vs[1..])
  }

  /** The number of verses `Split` finds in `text`. */
  function VerseCount(text: string): (n: nat)
    ensures n >= 1
  {
    |Split(text)|
  }

  /** Putting one more character in front of the first piece puts it in front of the joined text. */
  lemma {:induction false} JoinPrepend(c: char, vs: seq<string>)
    requires |vs| >= 1
    ensures Join([[c] + vs[0]] + vs[1..]) == [c] + Join(vs)
  {
    var ws := [[c] + vs[0]] + vs[1..];
    if |vs| > 1 {
      assert ws[1..] == vs[1..];
    }
  }

  /** Joining three pieces, spelled out; used by the worked examples. */
  lemma JoinThree(a: string, b: string, c: string)
    ensures Join([a, b, c]) == a + Delimiter + b + Delimiter + c
  {
    assert [a, b, c][1..] == [b, c];
    assert [b, c][1..] == [c];
    assert Join([b, c]) == b + Delimiter + c;
  }

  /** Join inverts Split: splitting a text and joining the verses gives the text back. */
  lemma {:induction false} JoinSplit(s: string)
    ensures Join(Split(s)) == s
    decreases |s|
  {
    if |s| < 2 {
    } else if s[0] == '\n' && s[1] == '\n' {
      var rest := Split(s[2..]);
      JoinSplit(s[2..]);
      assert ([""] + rest)[1..] == rest;
      assert s == Delimiter + s[2..];
    } else {
      var rest := Split(s[1..]);
      JoinSplit(s[1..]);
      JoinPrepend(s[0], rest);
      assert s == [s[0]] + s[1..];
    }
  }

  /** A verse on its own splits into itself. */
  lemma {:induction false} SplitVerse(v: string)
    requires IsVerse(v)
    ensures Split(v) == [v]
    decreases |v|
  {
    if |v| >= 2 {
      assert !DelimiterAt(v, 0);
      assert IsVerse(v[1..]) by {
        forall i | 0 <= i < |v| - 1 ensures !DelimiterAt(v[1..], i) {
          assert !DelimiterAt(v, i + 1);
        }
      }
      SplitVerse(v[1..]);
      assert [v[0]] + v[1..] == v;
    }
  }

  /**
   * A verse that does not end with a newline, followed by the delimiter, is
   * split off as the first piece.
   */
  lemma {:induction false} SplitAfterVerse(v: string, t: string)
    requires IsVerse(v) && !EndsWithNewline(v)
    ensures Split(v + Delimiter + t) == [v] + Split(t)
    decreases |v|
  {
    var s := v + Delimiter + t;
    if v == [] {
      assert s[2..] == t;
    } else {
      var w := v[1..];
      assert !DelimiterAt(s, 0) by {
        if s[0] == '\n' {
          assert w != [];
          assert !DelimiterAt(v, 0);
        }
      }
      assert IsVerse(w) by {
        forall i | 0 <= i < |w| ensures !DelimiterAt(w, i) {
          assert !DelimiterAt(v, i + 1);
        }
      }
      assert !EndsWithNewline(w) by {
        if w != [] {
          assert w[|w| - 1] == v[|v| - 1];
        }
      }
      assert s[1..] == w + Delimiter + t;
      SplitAfterVerse(w, t);
      assert [s[0]] + w == v;
      assert ([v] + Split(t))[1..] == Split(t);
    }
  }

  /** Split inverts Join: a well-formed list of verses survives joining and re-splitting. */
  lemma {:induction false} SplitJoin(vs: seq<string>)
    requires WellFormed(vs)
    ensures Split(Join(vs)) == vs
    decreases |vs|
  {
    if |vs| == 1 {
      SplitVerse(vs[0]);
    } else {
      var tail := vs[1..];
      assert WellFormed(tail) by {
        forall i | 0 <= i < |tail| ensures IsVerse(tail[i]) {
          assert tail[i] == vs[i + 1];
        }
        forall i | 0 <= i < |tail| - 1 ensures !EndsWithNewline(tail[i]) {
          assert tail[i] == vs[i + 1];
        }
      }
      SplitJoin(tail);
      SplitAfterVerse(vs[0], Join(tail));
      assert [vs[0]] + tail == vs;
    }
  }

  /** A text is a single verse exactly when it holds no blank line; in particular "" is one verse. */
  lemma SingleVerse(s: string)
    ensures Split(s) == [s] <==> IsVerse(s)
  {
    if IsVerse(s) {
      SplitVerse(s);
    }
  }

  /** A non-empty contiguous run of a well-formed list is well-formed. */
  lemma WellFormedSlice(vs: seq<string>, lo: nat, hi: nat)
    requires WellFormed(vs)
    requires lo < hi <= |vs|
    ensures WellFormed(vs[lo..hi])
  {
    var w := vs[lo..hi];
    forall i | 0 <= i < |w| ensures IsVerse(w[i]) {
      assert w[i] == vs[lo + i];
    }
    forall i | 0 <= i < |w| - 1 ensures !EndsWithNewline(w[i]) {
      assert w[i] == vs[lo + i];
    }
  }

  /** Joining two non-empty lists puts one delimiter between their joins. */
  lemma {:induction false} JoinAppend(a: seq<string>, b: seq<string>)
    requires |a| >= 1 && |b| >= 1
    ensures Join(a + b) == Join(a) + Delimiter + Join(b)
    decreases |a|
  {
    if |a| == 1 {
      assert (a + b)[1..] == b;
    } else {
      JoinAppend(a[1..], b);
      assert (a + b)[1..] == a[1..] + b;
    }
  }

  /** Cutting a list of at least two verses at `k` puts one delimiter between the joins of the two parts. */
  lemma JoinCut(vs: seq<string>, k: nat)
    requires 0 < k < |vs|
    ensures Join(vs) == Join(vs[..k]) + Delimiter + Join(vs[k..])
  {
    var a, b := vs[..k], vs[k..];
    assert vs == a + b;
    JoinAppend(a, b);
  }
}
