/**
 * The Python `str` operations the application relies on, with CPython's
 * semantics: `sep.join(parts)`, `s.split(c)` on a one-character separator,
 * `s.replace(pattern, replacement)` and `s.title()` (restricted to ASCII letters).
 */
module PyStr {

  /** Total length of a sequence of strings. */
  function TotalLength(parts: seq<string>): nat
  {
    if parts == [] then 0 else TotalLength(parts[..|parts| - 1]) + |parts[|parts| - 1]|
  }

  /** `sep.join(parts)`: the parts in their given order, `sep` between neighbours. */
  function Join(sep: string, parts: seq<string>): (r: string)
    decreases |parts|
  {
    if |parts| == 0 then ""
    else if |parts| == 1 then parts[0]
    else Join(sep, parts[..|parts| - 1]) + sep + parts[|parts| - 1]
  }

  /**
   * The join of no parts is empty; otherwise the joined string holds every
   * character of every part and one separator between each pair.
   */
  lemma {:induction false} JoinLength(sep: string, parts: seq<string>)
    ensures parts == [] ==> Join(sep, parts) == ""
    ensures |parts| > 0 ==> |Join(sep, parts)| == TotalLength(parts) + |sep| * (|parts| - 1)
    decreases |parts|
  {
    if |parts| == 1 {
      assert parts[..0] == [];
      assert TotalLength(parts) == |parts[0]|;
    } else if |parts| > 1 {
      var init := parts[..|parts| - 1];
      JoinLength(sep, init);
      assert Join(sep, parts) == Join(sep, init) + sep + parts[|parts| - 1];
      assert TotalLength(parts) == TotalLength(init) + |parts[|parts| - 1]|;
    }
  }

  /** Where part `k` starts in the joined string: all earlier parts and one separator after each. */
  function PartOffset(sep: string, parts: seq<string>, k: nat): nat
    requires k <= |parts|
  {
    TotalLength(parts[..k]) + k * |sep|
  }

  /**
   * Part `k` sits in the joined string at its offset, and a separator follows
   * every part but the last, whatever the parts contain.
   */
  lemma {:induction false} JoinPlacement(sep: string, parts: seq<string>, k: nat)
    requires k < |parts|
    ensures PartOffset(sep, parts, k) + |parts[k]| <= |Join(sep, parts)|
    ensures Join(sep, parts)[PartOffset(sep, parts, k)..PartOffset(sep, parts, k) + |parts[k]|] == parts[k]
    ensures k < |parts| - 1 ==>
      var end := PartOffset(sep, parts, k) + |parts[k]|;
      end + |sep| <= |Join(sep, parts)| && Join(sep, parts)[end..end + |sep|] == sep
    decreases |parts|, 1
  {
    if |parts| == 1 {
      assert parts[..0] == [];
    } else if k == |parts| - 1 {
      JoinPlacementLast(sep, parts);
    } else {
      JoinPlacementEarlier(sep, parts, k);
    }
  }

  /** A part before the last one sits where it sat in the join of all parts but the last. */
  lemma {:induction false} JoinPlacementEarlier(sep: string, parts: seq<string>, k: nat)
    requires k < |parts| - 1
    ensures var off := PartOffset(sep, parts, k);
            var end := off + |parts[k]|;
            && end + |sep| <= |Join(sep, parts)|
            && Join(sep, parts)[off..end] == parts[k]
            && Join(sep, parts)[end..end + |sep|] == sep
    decreases |parts|, 0
  {
    var n := |parts| - 1;
    var init := parts[..n];
    JoinPlacement(sep, init, k);
    assert init[..k] == parts[..k] && init[k] == parts[k];
    var left := Join(sep, init);
    assert Join(sep, parts) == left + (sep + parts[n]);
    var off := PartOffset(sep, parts, k);
    var end := off + |parts[k]|;
    assert PartOffset(sep, init, k) == off;
    SliceOfPrefix(left, sep + parts[n], off, end);
    if k < n - 1 {
      SliceOfPrefix(left, sep + parts[n], end, end + |sep|);
    } else {
      JoinPlacementLastSeparator(sep, parts);
    }
  }

  /** A slice that lies inside the left operand of a concatenation is a slice of it. */
  lemma SliceOfPrefix(a: string, b: string, i: nat, j: nat)
    requires i <= j <= |a|
    ensures (a + b)[i..j] == a[i..j]
  {
  }

  /** The last part sits right after the join of the others and one separator. */
  lemma JoinPlacementLast(sep: string, parts: seq<string>)
    requires |parts| > 1
    ensures var n := |parts| - 1;
            var off := PartOffset(sep, parts, n);
            off + |parts[n]| == |Join(sep, parts)| && Join(sep, parts)[off..off + |parts[n]|] == parts[n]
  {
    var n := |parts| - 1;
    var init := parts[..n];
    JoinLength(sep, init);
    assert parts[..n] == init;
    assert n * |sep| == (n - 1) * |sep| + |sep|;
    assert Join(sep, parts) == Join(sep, init) + sep + parts[n];
  }

  /** The separator before the last part ends where the join of the others ends. */
  lemma JoinPlacementLastSeparator(sep: string, parts: seq<string>)
    requires |parts| > 1
    ensures var k := |parts| - 2;
            var end := PartOffset(sep, parts, k) + |parts[k]|;
            end + |sep| <= |Join(sep, parts)| && Join(sep, parts)[end..end + |sep|] == sep
  {
    var n := |parts| - 1;
    var k := n - 1;
    var init := parts[..n];
    var left := Join(sep, init);
    JoinLength(sep, init);
    assert init[..k] == parts[..k];
    assert TotalLength(init) == TotalLength(init[..k]) + |init[k]|;
    var end := TotalLength(parts[..k]) + k * |sep| + |parts[k]|;
    assert end == |left|;
    assert Join(sep, parts) == left + sep + parts[n];
    assert (left + sep + parts[n])[|left|..|left| + |sep|] == sep;
  }

  /** `s.split(c)`: the maximal runs of `s` that do not contain `c`, in order. */
  function Split(s: string, c: char): (r: seq<string>)
    ensures |r| >= 1
    ensures forall k :: 0 <= k < |r| ==> c !in r[k]
    decreases |s|
  {
    if s == [] then [""]
    else
      var init := Split(s[..|s| - 1], c);
      if s[|s| - 1] == c then init + [""]
      else init[..|init| - 1] + [init[|init| - 1] + [s[|s| - 1]]]
  }

  /** Joining the pieces of a split with the separator gives the original string back. */
  lemma {:induction false} JoinSplit(s: string, c: char)
    ensures Join([c], Split(s, c)) == s
    decreases |s|
  {
    if s != [] {
      var front, last := s[..|s| - 1], s[|s| - 1];
      assert s == front + [last];
      var init := Split(front, c);
      JoinSplit(front, c);
      if last == c {
        assert Split(s, c) == init + [""];
        assert (init + [""])[..|init|] == init;
      } else {
        var pieces := init[..|init| - 1] + [init[|init| - 1] + [last]];
        assert Split(s, c) == pieces;
        JoinExtendLast([c], init, last);
      }
    }
  }

  /** Appending a character to the last part appends it to the joined string. */
  lemma JoinExtendLast(sep: string, parts: seq<string>, x: char)
    requires |parts| > 0
    ensures Join(sep, parts[..|parts| - 1] + [parts[|parts| - 1] + [x]]) == Join(sep, parts) + [x]
  {
    var extended := parts[..|parts| - 1] + [parts[|parts| - 1] + [x]];
    assert extended[..|extended| - 1] == parts[..|parts| - 1];
  }

  /** Splitting a join gives the parts back, provided no part contains the separator. */
  lemma {:induction false} SplitJoin(parts: seq<string>, c: char)
    requires |parts| > 0
    requires forall k :: 0 <= k < |parts| ==> c !in parts[k]
    ensures Split(Join([c], parts), c) == parts
    decreases |parts|
  {
    if |parts| == 1 {
      SplitNoSeparator(parts[0], c);
    } else {
      var init, last := parts[..|parts| - 1], parts[|parts| - 1];
      assert parts == init + [last];
      SplitJoin(init, c);
      SplitAppend(Join([c], init), last, c);
    }
  }

  /** A string without the separator splits into itself alone. */
  lemma {:induction false} SplitNoSeparator(s: string, c: char)
    requires c !in s
    ensures Split(s, c) == [s]
    decreases |s|
  {
    if s != [] {
      assert c !in s[..|s| - 1];
      SplitNoSeparator(s[..|s| - 1], c);
      assert s == s[..|s| - 1] + [s[|s| - 1]];
    }
  }

  /** Splitting `s + [c] + t`, where `t` has no separator, ends with `t` as its own piece. */
  lemma {:induction false} SplitAppend(s: string, t: string, c: char)
    requires c !in t
    ensures Split(s + [c] + t, c) == Split(s, c) + [t]
    decreases |t|
  {
    if t == [] {
      assert s + [c] + t == s + [c];
      assert (s + [c])[..|s|] == s;
    } else {
      var u := s + [c] + t;
      var t' := t[..|t| - 1];
      assert u[..|u| - 1] == s + [c] + t';
      assert c !in t';
      SplitAppend(s, t', c);
      assert t == t' + [t[|t| - 1]];
    }
  }

  /** The final piece of `s.split(c)`, i.e. `s.split(c)[-1]`. */
  function LastPiece(s: string, c: char): (r: string)
    ensures c !in r
  {
    var pieces := Split(s, c);
    pieces[|pieces| - 1]
  }

  /** The final piece grows by each character that is not `c` and starts afresh at each `c`. */
  lemma LastPieceStep(s: string, c: char)
    requires s != []
    ensures LastPiece(s, c) == if s[|s| - 1] == c then "" else LastPiece(s[..|s| - 1], c) + [s[|s| - 1]]
  {
  }

  /** The final piece is the suffix of `s` after its last `c` (all of `s` when there is none). */
  lemma {:induction false} LastPieceIsSuffix(s: string, c: char)
    ensures |LastPiece(s, c)| <= |s|
    ensures s == s[..|s| - |LastPiece(s, c)|] + LastPiece(s, c)
    ensures |LastPiece(s, c)| < |s| ==> s[|s| - |LastPiece(s, c)| - 1] == c
    decreases |s|
  {
    if s != [] {
      var front, last := s[..|s| - 1], s[|s| - 1];
      LastPieceIsSuffix(front, c);
      LastPieceStep(s, c);
      var p, q := LastPiece(front, c), LastPiece(s, c);
      if last == c {
        assert q == [];
        assert s[..|s|] == s;
      } else {
        var i := |front| - |p|;
        assert q == p + [last];
        assert |s| - |q| == i;
        assert s[..i] == front[..i];
        assert s == front[..i] + p + [last];
        if i > 0 {
          assert s[i - 1] == front[i - 1];
        }
      }
    }
  }

  /**
   * `s.replace(pattern, replacement)` for a non-empty pattern: a single
   * left-to-right scan replacing non-overlapping occurrences.
   */
  function Replace(s: string, pattern: string, replacement: string): (r: string)
    requires |pattern| > 0
    ensures |replacement| <= |pattern| ==> |r| <= |s|
    decreases |s|
  {
    if |s| < |pattern| then s
    else if s[..|pattern|] == pattern then replacement + Replace(s[|pattern|..], pattern, replacement)
    else [s[0]] + Replace(s[1..], pattern, replacement)
  }

  /** Every character of the result comes from the input or from the replacement. */
  lemma {:induction false} ReplaceCharacters(s: string, pattern: string, replacement: string)
    requires |pattern| > 0
    ensures forall x :: x in Replace(s, pattern, replacement) ==> x in s || x in replacement
    decreases |s|
  {
    if |s| >= |pattern| {
      if s[..|pattern|] == pattern {
        ReplaceCharacters(s[|pattern|..], pattern, replacement);
      } else {
        ReplaceCharacters(s[1..], pattern, replacement);
      }
    }
  }

  /** Replacing one character by another maps the string position by position. */
  lemma {:induction false} ReplaceCharPointwise(s: string, a: char, b: char)
    ensures |Replace(s, [a], [b])| == |s|
    ensures forall i :: 0 <= i < |s| ==>
      Replace(s, [a], [b])[i] == (if s[i] == a then b else s[i])
    decreases |s|
  {
    if s != [] {
      ReplaceCharPointwise(s[1..], a, b);
    }
  }

  /** A prefix holding no character that starts the pattern is copied unchanged. */
  lemma {:induction false} ReplaceSkip(a: string, b: string, pattern: string, replacement: string)
    requires |pattern| > 0 && pattern[0] !in a
    ensures Replace(a + b, pattern, replacement) == a + Replace(b, pattern, replacement)
    decreases |a|
  {
    if a == [] {
      assert a + b == b;
    } else {
      var s := a + b;
      assert s[0] == a[0];
      if |s| >= |pattern| {
        assert s[..|pattern|] != pattern by { assert s[..|pattern|][0] == s[0]; }
        assert s[1..] == a[1..] + b;
        assert pattern[0] !in a[1..];
        ReplaceSkip(a[1..], b, pattern, replacement);
        assert a == [a[0]] + a[1..];
        assert Replace(s, pattern, replacement) == [s[0]] + Replace(s[1..], pattern, replacement);
      } else {
        assert Replace(b, pattern, replacement) == b;
      }
    }
  }

  /** An occurrence of the pattern is replaced, and the scan resumes after it. */
  lemma ReplaceHit(b: string, pattern: string, replacement: string)
    requires |pattern| > 0
    ensures Replace(pattern + b, pattern, replacement) == replacement + Replace(b, pattern, replacement)
  {
    assert (pattern + b)[..|pattern|] == pattern;
    assert (pattern + b)[|pattern|..] == b;
  }

  /** No window of `s` spells the pattern: `pattern in s` is false. */
  predicate NoOccurrence(s: string, pattern: string)
  {
    forall i :: 0 <= i && i + |pattern| <= |s| ==> s[i..][..|pattern|] != pattern
  }

  /** A string with no occurrence of the pattern is returned unchanged. */
  lemma {:induction false} ReplaceAbsent(s: string, pattern: string, replacement: string)
    requires |pattern| > 0 && NoOccurrence(s, pattern)
    ensures Replace(s, pattern, replacement) == s
    decreases |s|
  {
    if |s| >= |pattern| {
      assert s[0..][..|pattern|] != pattern;
      assert s[0..] == s;
      forall i | 0 <= i && i + |pattern| <= |s[1..]|
        ensures s[1..][i..][..|pattern|] != pattern
      {
        assert s[1..][i..] == s[i + 1..];
      }
      ReplaceAbsent(s[1..], pattern, replacement);
      assert s == [s[0]] + s[1..];
    }
  }

  /**
   * Two strings free of the pattern stay free of it when joined, provided the
   * second starts with a character the pattern lacks: every window that
   * straddles the boundary holds that character.
   */
  lemma NoOccurrenceAppend(a: string, b: string, pattern: string)
    requires |pattern| > 0 && NoOccurrence(a, pattern) && NoOccurrence(b, pattern)
    requires |b| > 0 && b[0] !in pattern
    ensures NoOccurrence(a + b, pattern)
  {
    var s := a + b;
    forall i | 0 <= i && i + |pattern| <= |s|
      ensures s[i..][..|pattern|] != pattern
    {
      if i + |pattern| <= |a| {
        assert s[i..][..|pattern|] == a[i..][..|pattern|];
      } else if i >= |a| {
        assert s[i..] == b[i - |a|..];
      } else {
        assert s[i..][..|pattern|][|a| - i] == b[0];
      }
    }
  }

  /** The last piece of `s + [c] + t` is `t` when `t` holds no `c`. */
  lemma LastPieceAfter(s: string, t: string, c: char)
    requires c !in t
    ensures LastPiece(s + [c] + t, c) == t
  {
    SplitAppend(s, t, c);
  }

  /**
   * A string in which the pattern's first two characters never appear side by
   * side holds no occurrence, and is left as it is.
   */
  lemma {:induction false} ReplaceNoPair(s: string, pattern: string, replacement: string)
    requires |pattern| >= 2
    requires forall i :: 0 <= i < |s| - 1 && s[i] == pattern[0] ==> s[i + 1] != pattern[1]
    ensures Replace(s, pattern, replacement) == s
    decreases |s|
  {
    if |s| >= |pattern| {
      assert s[..|pattern|] != pattern by {
        if s[0] == pattern[0] {
          assert s[..|pattern|][1] == s[1];
        } else {
          assert s[..|pattern|][0] == s[0];
        }
      }
      forall i | 0 <= i < |s[1..]| - 1 && s[1..][i] == pattern[0]
        ensures s[1..][i + 1] != pattern[1]
      {
        assert s[1..][i] == s[i + 1] && s[1..][i + 1] == s[i + 2];
      }
      ReplaceNoPair(s[1..], pattern, replacement);
      assert s == [s[0]] + s[1..];
    }
  }

  predicate IsUpper(c: char) { 'A' <= c <= 'Z' }
  predicate IsLower(c: char) { 'a' <= c <= 'z' }
  /** A cased character in the sense of `str.title` (ASCII letters only). */
  predicate IsLetter(c: char) { IsUpper(c) || IsLower(c) }

  function ToUpper(c: char): (r: char)
    ensures IsLetter(c) ==> IsUpper(r)
  {
    if IsLower(c) then (c as int - 'a' as int + 'A' as int) as char else c
  }

  function ToLower(c: char): (r: char)
    ensures IsLetter(c) ==> IsLower(r)
  {
    if IsUpper(c) then (c as int - 'A' as int + 'a' as int) as char else c
  }

  /**
   * `s.title()`: scans left to right remembering whether the previous character
   * was cased; a letter after an uncased character is upper-cased, any other
   * letter lower-cased, and every other character copied.
   */
  function Title(s: string): (r: string)
    ensures |r| == |s|
    ensures forall i :: 0 <= i < |s| && !IsLetter(s[i]) ==> r[i] == s[i]
  {
    TitleFromPointwise(s, false);
    TitleFrom(s, false)
  }

  function TitleFrom(s: string, previousCased: bool): (r: string)
    ensures |r| == |s|
    decreases |s|
  {
    if s == [] then ""
    else
      var c := s[0];
      var c' := if !IsLetter(c) then c else if previousCased then ToLower(c) else ToUpper(c);
      [c'] + TitleFrom(s[1..], IsLetter(c))
  }

  /** The case a letter takes at position `i` of `s.title()`. */
  function TitleCharAt(s: string, i: nat): char
    requires i < |s|
  {
    if !IsLetter(s[i]) then s[i]
    else if i == 0 || !IsLetter(s[i - 1]) then ToUpper(s[i])
    else ToLower(s[i])
  }

  lemma {:induction false} TitleFromPointwise(s: string, previousCased: bool)
    ensures |TitleFrom(s, previousCased)| == |s|
    ensures s != [] ==>
      TitleFrom(s, previousCased)[0] ==
        (if !IsLetter(s[0]) then s[0] else if previousCased then ToLower(s[0]) else ToUpper(s[0]))
    ensures forall i :: 0 < i < |s| ==> TitleFrom(s, previousCased)[i] == TitleCharAt(s, i)
    decreases |s|
  {
    if s != [] {
      var tail := s[1..];
      TitleFromPointwise(tail, IsLetter(s[0]));
      forall i | 0 < i < |s|
        ensures TitleFrom(s, previousCased)[i] == TitleCharAt(s, i)
      {
        assert TitleFrom(s, previousCased)[i] == TitleFrom(tail, IsLetter(s[0]))[i - 1];
        if i > 1 {
          assert TitleCharAt(tail, i - 1) == TitleCharAt(s, i);
        }
      }
    }
  }

  /**
   * `str.title()` position by position: the length is kept, non-letters are
   * copied, and a letter is upper case exactly when it does not follow a letter.
   */
  lemma TitlePointwise(s: string)
    ensures |Title(s)| == |s|
    ensures forall i :: 0 <= i < |s| ==> Title(s)[i] == TitleCharAt(s, i)
    ensures forall i :: 0 <= i < |s| && IsLetter(s[i]) ==>
      (IsUpper(Title(s)[i]) <==> (i == 0 || !IsLetter(s[i - 1])))
    ensures forall i :: 0 <= i < |s| && !IsLetter(s[i]) ==> Title(s)[i] == s[i]
  {
    TitleFromPointwise(s, false);
  }
}
