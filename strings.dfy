/** Models of the few functions of Go's `strings` package that the songs
    service uses. Strings are sequences of characters; every pattern the
    service passes is plain ASCII, so byte and character positions agree. */
module GoStrings {

  /** `p` occurs in `s` starting at position `j`. */
  predicate OccursAt(s: string, p: string, j: int)
  {
    0 <= j && j + |p| <= |s| && s[j..j + |p|] == p
  }

  /** `p` occurs somewhere in `s`. */
  predicate Occurs(s: string, p: string)
  {
    exists j | 0 <= j <= |s| :: OccursAt(s, p, j)
  }

  /** strings.Index: the position of the first occurrence of `p` in `s`,
      or -1 when there is none. */
  function Index(s: string, p: string): (r: int)
    ensures r == -1 <==> !Occurs(s, p)
    ensures r != -1 ==> OccursAt(s, p, r)
    ensures forall j :: 0 <= j < r ==> !OccursAt(s, p, j)
    decreases |s|
  {
    if |s| < |p| then
      assert forall j :: !OccursAt(s, p, j);
      -1
    else if s[..|p|] == p then
      assert OccursAt(s, p, 0);
      0
    else
      var k := Index(s[1..], p);
      if k == -1 then
        assert forall j :: OccursAt(s, p, j) ==> j > 0 && OccursAt(s[1..], p, j - 1);
        -1
      else
        assert OccursAt(s, p, k + 1) by { assert s[k + 1..k + 1 + |p|] == s[1..][k..k + |p|]; }
        assert forall j :: 0 < j < k + 1 ==> !OccursAt(s, p, j) by {
          forall j | 0 < j < k + 1 && OccursAt(s, p, j) ensures false {
            assert s[1..][j - 1..j - 1 + |p|] == s[j..j + |p|];
            assert OccursAt(s[1..], p, j - 1);
          }
        }
        k + 1
  }

  /** A string that ends before the first occurrence of `p` holds no `p`. */
  lemma NoOccurrenceBeforeIndex(s: string, p: string, i: int)
    requires p != [] && 0 <= i <= |s|
    requires forall j :: 0 <= j < i ==> !OccursAt(s, p, j)
    ensures !Occurs(s[..i], p)
  {
    forall j | OccursAt(s[..i], p, j) ensures false {
      assert s[..i][j..j + |p|] == s[j..j + |p|];
      assert OccursAt(s, p, j);
    }
  }

  /** strings.Split for a non-empty separator: the pieces of `s` around each
      occurrence of `sep`, found left to right without overlap. */
  function Split(s: string, sep: string): (r: seq<string>)
    requires sep != []
    ensures |r| >= 1
    ensures forall k :: 0 <= k < |r| ==> !Occurs(r[k], sep)
    decreases |s|
  {
    var i := Index(s, sep);
    if i == -1 then [s]
    else
      NoOccurrenceBeforeIndex(s, sep, i);
      [s[..i]] + Split(s[i + |sep|..], sep)
  }

  /** strings.Join: the pieces with `sep` between consecutive ones. */
  function Join(pieces: seq<string>, sep: string): string
  {
    if |pieces| == 0 then ""
    else if |pieces| == 1 then pieces[0]
    else pieces[0] + sep + Join(pieces[1..], sep)
  }

  /** One step of Split: the piece before the first separator, then the
      pieces of the rest. */
  lemma SplitStep(s: string, sep: string)
    requires sep != [] && Index(s, sep) != -1
    ensures Split(s, sep) == [s[..Index(s, sep)]] + Split(s[Index(s, sep) + |sep|..], sep)
  {
  }

  /** One step of Join on a first piece and at least one more. */
  lemma JoinStep(first: string, rest: seq<string>, sep: string)
    requires rest != []
    ensures Join([first] + rest, sep) == first + sep + Join(rest, sep)
  {
    assert ([first] + rest)[1..] == rest;
  }

  /** A string is the text before an occurrence, the occurrence, and the
      text after it. */
  lemma AroundOccurrence(s: string, p: string, i: int)
    requires OccursAt(s, p, i)
    ensures s == s[..i] + p + s[i + |p|..]
  {
    assert s == s[..i] + s[i..i + |p|] + s[i + |p|..];
  }

  /** Splitting and joining again with the same separator gives back the
      original string. */
  lemma {:induction false} JoinSplit(s: string, sep: string)
    requires sep != []
    ensures Join(Split(s, sep), sep) == s
    decreases |s|
  {
    var i := Index(s, sep);
    if i != -1 {
      var rest := s[i + |sep|..];
      JoinSplit(rest, sep);
      SplitStep(s, sep);
      JoinStep(s[..i], Split(rest, sep), sep);
      AroundOccurrence(s, sep, i);
    }
  }

  /** A string without the separator is a single piece. */
  lemma SplitWithoutSeparator(s: string, sep: string)
    requires sep != []
    requires !Occurs(s, sep)
    ensures Split(s, sep) == [s]
  {
  }

  /** Joining never makes a string longer than the original when the rep
      separator is no longer than the pat one. */
  lemma {:induction false} JoinShorter(pieces: seq<string>, pat: string, rep: string)
    ensures |rep| <= |pat| ==> |Join(pieces, rep)| <= |Join(pieces, pat)|
  {
    if |pieces| > 1 {
      JoinShorter(pieces[1..], pat, rep);
    }
  }

  /** strings.ReplaceAll for a non-empty pattern: one left-to-right pass that
      replaces each non-overlapping occurrence of `pat` by `rep`. A
      replacement no longer than the pattern never lengthens the text, and
      text without the pattern is left unchanged. */
  function ReplaceAll(s: string, pat: string, rep: string): (r: string)
    requires pat != []
    ensures |rep| <= |pat| ==> |r| <= |s|
    ensures !Occurs(s, pat) ==> r == s
  {
    JoinSplit(s, pat);
    if Occurs(s, pat) then
      JoinShorter(Split(s, pat), pat, rep);
      Join(Split(s, pat), rep)
    else
      SplitWithoutSeparator(s, pat);
      Join(Split(s, pat), rep)
  }

  /** Putting a character that `p` does not contain between two strings
      without `p` creates no occurrence of `p`. */
  lemma NoOccurrenceAcross(a: string, c: char, b: string, p: string)
    requires !Occurs(a, p) && !Occurs(b, p) && c !in p
    ensures !Occurs(a + [c] + b, p)
  {
    var s := a + [c] + b;
    assert s[|a|] == c;
    forall j | OccursAt(s, p, j) ensures false {
      if j + |p| <= |a| {
        assert s[j..j + |p|] == a[j..j + |p|];
        assert OccursAt(a, p, j);
      } else if j > |a| {
        assert s[j..j + |p|] == b[j - |a| - 1..j - |a| - 1 + |p|];
        assert OccursAt(b, p, j - |a| - 1);
      }
    }
  }

  /** Joining pieces without `p` by a one-character separator absent from
      `p` gives a string without `p`. */
  lemma {:induction false} JoinNoOccurrence(pieces: seq<string>, c: char, p: string)
    requires forall k :: 0 <= k < |pieces| ==> !Occurs(pieces[k], p)
    requires p != [] && c !in p
    ensures !Occurs(Join(pieces, [c]), p)
  {
    if |pieces| > 1 {
      JoinNoOccurrence(pieces[1..], c, p);
      NoOccurrenceAcross(pieces[0], c, Join(pieces[1..], [c]), p);
    }
  }

  /** ReplaceAll by a single character that the pattern does not contain
      leaves no occurrence of the pattern. */
  lemma ReplaceAllRemoves(s: string, pat: string, c: char)
    requires pat != [] && c !in pat
    ensures !Occurs(ReplaceAll(s, pat, [c]), pat)
  {
    JoinNoOccurrence(Split(s, pat), c, pat);
  }

  /** The white-space characters strings.TrimSpace removes, restricted to
      ASCII. */
  predicate IsSpace(c: char)
  {
    c == ' ' || c == '\t' || c == '\n' || c == '\U{B}' || c == '\U{C}' || c == '\r'
  }

  /** Strips leading white space. */
  function TrimLeft(s: string): (r: string)
    ensures |r| <= |s| && r == s[|s| - |r|..]
    ensures r == [] || !IsSpace(r[0])
    ensures forall k :: 0 <= k < |s| - |r| ==> IsSpace(s[k])
  {
    if |s| > 0 && IsSpace(s[0]) then TrimLeft(s[1..]) else s
  }

  /** Strips trailing white space. */
  function TrimRight(s: string): (r: string)
    ensures |r| <= |s| && r == s[..|r|]
    ensures r == [] || !IsSpace(r[|r| - 1])
    ensures forall k :: |r| <= k < |s| ==> IsSpace(s[k])
  {
    if |s| > 0 && IsSpace(s[|s| - 1]) then TrimRight(s[..|s| - 1]) else s
  }

  /** `r` is `s` with white space, and only white space, removed before
      index `i` and after `r` ends. */
  predicate TrimmedAt(s: string, r: string, i: int)
  {
    && OccursAt(s, r, i)
    && (forall k :: 0 <= k < i ==> IsSpace(s[k]))
    && (forall k :: i + |r| <= k < |s| ==> IsSpace(s[k]))
  }

  /** Removing white space from the left end and then from the right end
      leaves a substring surrounded by white space only. */
  lemma TrimmedCompose(s: string, l: string, r: string)
    requires |l| <= |s| && l == s[|s| - |l|..]
    requires forall k :: 0 <= k < |s| - |l| ==> IsSpace(s[k])
    requires |r| <= |l| && r == l[..|r|]
    requires forall k :: |r| <= k < |l| ==> IsSpace(l[k])
    ensures TrimmedAt(s, r, |s| - |l|)
  {
    var i := |s| - |l|;
    assert r == s[i..i + |r|];
    forall k | i + |r| <= k < |s| ensures IsSpace(s[k]) {
      assert s[k] == l[k - i];
    }
  }

  /** strings.TrimSpace: `s` with only white space removed at both ends,
      and all of it, so that the result neither starts nor ends with white
      space. */
  function TrimSpace(s: string): (r: string)
    ensures |r| <= |s|
    ensures r == [] || (!IsSpace(r[0]) && !IsSpace(r[|r| - 1]))
    ensures exists i | 0 <= i <= |s| :: TrimmedAt(s, r, i)
  {
    var l := TrimLeft(s);
    var r := TrimRight(l);
    TrimmedCompose(s, l, r);
    r
  }

  /** The characters of a trimmed substring are those of `s` from `i` on. */
  lemma TrimmedChars(s: string, t: string, i: int)
    requires TrimmedAt(s, t, i)
    ensures forall m :: 0 <= m < |t| ==> s[i + m] == t[m]
  {
    forall m | 0 <= m < |t| ensures s[i + m] == t[m] {
      assert s[i..i + |t|][m] == s[i + m];
    }
  }

  /** The trimmed text is unique: any substring that is surrounded by white
      space only and neither starts nor ends with white space is the
      result of TrimSpace. */
  lemma TrimSpaceUnique(s: string, t: string, i: int)
    requires TrimmedAt(s, t, i)
    requires t == [] || (!IsSpace(t[0]) && !IsSpace(t[|t| - 1]))
    ensures TrimSpace(s) == t
  {
    var r := TrimSpace(s);
    var j :| 0 <= j <= |s| && TrimmedAt(s, r, j);
    TrimmedChars(s, t, i);
    TrimmedChars(s, r, j);
    if |t| > 0 {
      assert !IsSpace(s[i]) && !IsSpace(s[i + |t| - 1]);
      assert j <= i < j + |r|;
      assert !IsSpace(s[j]) && !IsSpace(s[j + |r| - 1]);
      assert i == j;
      assert i + |t| == j + |r|;
      assert t == s[i..i + |t|];
    } else {
      assert forall k :: 0 <= k < |s| ==> IsSpace(s[k]);
    }
  }

  /** TrimSpace on a padded word gives the word. */
  lemma TrimSpaceExample()
    ensures TrimSpace(" \tabc\n ") == "abc"
  {
    var s := " \tabc\n ";
    assert s[2..5] == "abc";
    TrimSpaceUnique(s, "abc", 2);
  }

  /** A substring of a string without `p` has no `p`. */
  lemma NoOccurrenceInSubstring(s: string, i: int, j: int, p: string)
    requires 0 <= i <= j <= |s| && !Occurs(s, p)
    ensures !Occurs(s[i..j], p)
  {
    forall k | OccursAt(s[i..j], p, k) ensures false {
      assert |s[i..j]| == j - i;
      var u := s[i..j][k..k + |p|];
      assert forall m :: 0 <= m < |p| ==> u[m] == s[i + k + m];
      assert u == s[i + k..i + k + |p|];
      assert OccursAt(s, p, i + k);
    }
  }

  /** Trimming cannot create an occurrence of a pattern. */
  lemma TrimSpaceKeepsAbsence(s: string, p: string)
    requires !Occurs(s, p)
    ensures !Occurs(TrimSpace(s), p)
  {
    var r := TrimSpace(s);
    var i :| 0 <= i <= |s| && TrimmedAt(s, r, i);
    NoOccurrenceInSubstring(s, i, i + |r|, p);
    assert s[i..i + |r|] == r;
  }

  /** TrimSpace leaves a string without surrounding white space unchanged. */
  lemma TrimSpaceClean(s: string)
    requires s == [] || (!IsSpace(s[0]) && !IsSpace(s[|s| - 1]))
    ensures TrimSpace(s) == s
  {
  }
}
