/** The string operations the handlers rely on: Python's `str.split` with a
    one-character separator, the `[-1]` segment it yields, and the prefix
    test the log service applies to filter names. */
module Text {

  /** `p` is a prefix of `s`. */
  predicate IsPrefix(p: string, s: string) {
    |p| <= |s| && s[..|p|] == p
  }

  /** `p` is a suffix of `s`. */
  predicate IsSuffix(p: string, s: string) {
    |p| <= |s| && s[|s| - |p|..] == p
  }

  /** Python's `sep.join(parts)`. */
  function Join(parts: seq<string>, sep: char): string
  {
    if |parts| == 0 then ""
    else if |parts| == 1 then parts[0]
    else parts[0] + [sep] + Join(parts[1..], sep)
  }

  /** Python's `s.split(sep)` for a one-character separator: none of the
      segments contains the separator, there is a single segment exactly
      when `s` has no separator, and (`SplitJoin`) joining them back gives
      `s`. */
  function Split(s: string, sep: char): (parts: seq<string>)
    ensures |parts| >= 1
    ensures |parts| == 1 <==> sep !in s
    ensures forall i :: 0 <= i < |parts| ==> sep !in parts[i]
    decreases |s|
  {
    if |s| == 0 then [""]
    else
      var rest := Split(s[1..], sep);
      assert sep in s <==> s[0] == sep || sep in s[1..] by {
        assert s == [s[0]] + s[1..];
      }
      if s[0] == sep then [""] + rest
      else
        var parts := [[s[0]] + rest[0]] + rest[1..];
        assert forall i :: 1 <= i < |parts| ==> parts[i] == rest[i];
        parts
  }

  /** Joining the segments of a split with the same separator gives back
      the original string. */
  lemma {:induction false} SplitJoin(s: string, sep: char)
    ensures Join(Split(s, sep), sep) == s
    decreases |s|
  {
    if |s| > 0 {
      var rest := Split(s[1..], sep);
      SplitJoin(s[1..], sep);
      JoinStep(s[0], s[1..], rest, sep);
      assert s == [s[0]] + s[1..];
    }
  }

  /** One step of `SplitJoin`: splitting `[c] + tail` joins back to
      `[c]` followed by what the split of `tail` joins back to. */
  lemma JoinStep(c: char, tail: string, rest: seq<string>, sep: char)
    requires rest == Split(tail, sep)
    ensures Join(Split([c] + tail, sep), sep) == [c] + Join(rest, sep)
  {
    var s := [c] + tail;
    assert s[0] == c && s[1..] == tail;
    if c == sep {
      assert Split(s, sep) == [""] + rest;
      JoinCons("", rest, sep);
    } else if |rest| == 1 {
      assert Split(s, sep) == [[c] + rest[0]];
    } else {
      assert Split(s, sep) == [[c] + rest[0]] + rest[1..];
      JoinExtendFirst(c, rest, sep);
    }
  }

  /** Prepending a character to the first of several segments prepends it
      to their join. */
  lemma JoinExtendFirst(c: char, rest: seq<string>, sep: char)
    requires |rest| > 1
    ensures Join([[c] + rest[0]] + rest[1..], sep) == [c] + Join(rest, sep)
  {
    var head, more := rest[0], rest[1..];
    assert rest == [head] + more;
    JoinCons([c] + head, more, sep);
    JoinCons(head, more, sep);
  }

  /** Joining a non-empty tail after a first segment puts one separator
      between them. */
  lemma JoinCons(first: string, tail: seq<string>, sep: char)
    requires |tail| > 0
    ensures Join([first] + tail, sep) == first + [sep] + Join(tail, sep)
  {
    assert ([first] + tail)[1..] == tail;
  }

  /** Python's `s.split(sep)[-1]`: the text after the last separator. */
  function LastSegment(s: string, sep: char): string
  {
    var parts := Split(s, sep);
    parts[|parts| - 1]
  }

  /** The last segment is the suffix of `s` that starts right after the
      last separator, or all of `s` when there is none. */
  lemma {:induction false} LastSegmentAt(s: string, sep: char, i: nat)
    requires i <= |s|
    requires sep !in s[i..]
    requires i == 0 || s[i - 1] == sep
    ensures LastSegment(s, sep) == s[i..]
    decreases |s|
  {
    if |s| > 0 {
      var rest := Split(s[1..], sep);
      if i == 0 {
        assert s[1..] == s[0..][1..];
        LastSegmentAt(s[1..], sep, 0);
        assert s == [s[0]] + s[1..];
      } else {
        assert s[1..][i - 1..] == s[i..];
        assert i - 1 == 0 || s[1..][i - 2] == sep;
        LastSegmentAt(s[1..], sep, i - 1);
        if s[0] != sep {
          assert s[1..][i - 2] in s[1..];
        }
      }
    }
  }

  /** Text appended after a separator, itself free of separators, is the
      last segment. */
  lemma LastSegmentAfter(head: string, tail: string, sep: char)
    requires |head| > 0 && head[|head| - 1] == sep
    requires sep !in tail
    ensures LastSegment(head + tail, sep) == tail
  {
    var s := head + tail;
    assert s[|head|..] == tail;
    assert s[|head| - 1] == sep;
    LastSegmentAt(s, sep, |head|);
  }

  /** The last segment never contains the separator, is a suffix of `s`,
      and is either all of `s` or preceded by a separator. */
  lemma LastSegmentProperties(s: string, sep: char)
    ensures sep !in LastSegment(s, sep)
    ensures IsSuffix(LastSegment(s, sep), s)
    ensures var r := LastSegment(s, sep);
            r == s || s[|s| - |r| - 1] == sep
  {
    var i := LastSeparatorEnd(s, sep);
    LastSegmentAt(s, sep, i);
  }

  /** The index just after the last separator in `s`, 0 when there is none. */
  function LastSeparatorEnd(s: string, sep: char): (i: nat)
    ensures i <= |s|
    ensures sep !in s[i..]
    ensures i == 0 || s[i - 1] == sep
  {
    if |s| == 0 then 0
    else if s[|s| - 1] == sep then |s|
    else
      var j := LastSeparatorEnd(s[..|s| - 1], sep);
      assert s[j..] == s[..|s| - 1][j..] + [s[|s| - 1]];
      j
  }

  /** Computes `s.split(sep)[-1]` by scanning back from the end of `s`
      to the last separator. */
  method FindLastSegment(s: string, sep: char) returns (r: string)
    ensures r == LastSegment(s, sep)
  {
    var i := |s|;
    while i > 0 && s[i - 1] != sep
      invariant 0 <= i <= |s|
      invariant sep !in s[i..]
    {
      i := i - 1;
    }
    r := s[i..];
    LastSegmentAt(s, sep, i);
  }
}
