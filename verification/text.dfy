/**
  Splitting and joining strings on a one-character separator, with the semantics of
  JavaScript's `String.prototype.split` and `Array.prototype.join`.
 */
module Text {

  /** The separator the client joins account ids with and the gateway splits on. */
  const Comma: char := ','

  /** `s.split(sep)`: the maximal separator-free pieces of `s`, in order. It is never
      empty: the empty string splits into one empty piece. */
  function Split(s: string, sep: char): (parts: seq<string>)
    ensures |parts| > 0
    ensures forall k :: 0 <= k < |parts| ==> sep !in parts[k]
    decreases |s|
  {
    if |s| == 0 then [""]
    else
      assert s == [s[0]] + s[1..];
      if s[0] == sep then [""] + Split(s[1..], sep)
      else
        var rest := Split(s[1..], sep);
        [[s[0]] + rest[0]] + rest[1..]
  }

  /** There is one more piece than the string has separators. */
  lemma {:induction false} SplitCount(s: string, sep: char)
    ensures |Split(s, sep)| == multiset(s)[sep] + 1
    decreases |s|
  {
    if |s| > 0 {
      SplitCount(s[1..], sep);
      assert s == [s[0]] + s[1..];
      assert multiset(s) == multiset{s[0]} + multiset(s[1..]);
    }
  }

  /** `parts.join(sep)`: the parts with one separator between neighbours; `[]` joins to "".
      The first part comes first, followed by a separator when more parts follow, and
      there is at least one character per separator. */
  function Join(parts: seq<string>, sep: char): (s: string)
    ensures |parts| > 0 ==> parts[0] <= s
    ensures |parts| > 1 ==> parts[0] + [sep] <= s
    ensures |parts| > 0 ==> |s| >= |parts| - 1
  {
    if |parts| == 0 then ""
    else if |parts| == 1 then parts[0]
    else parts[0] + [sep] + Join(parts[1..], sep)
  }

  /** A separator-free string is its own single piece. */
  lemma {:induction false} SplitWithoutSep(a: string, sep: char)
    requires sep !in a
    ensures Split(a, sep) == [a]
  {
    if |a| > 0 {
      assert a == [a[0]] + a[1..];
      SplitWithoutSep(a[1..], sep);
    }
  }

  /** A separator-free prefix followed by a separator becomes the first piece. */
  lemma {:induction false} SplitAfterPiece(a: string, sep: char, rest: string)
    requires sep !in a
    ensures Split(a + [sep] + rest, sep) == [a] + Split(rest, sep)
  {
    var s := a + [sep] + rest;
    if |a| == 0 {
      assert s == [sep] + rest;
      assert s[1..] == rest;
    } else {
      assert s[0] == a[0];
      assert s[1..] == a[1..] + [sep] + rest;
      SplitAfterPiece(a[1..], sep, rest);
      assert [a[0]] + a[1..] == a;
    }
  }

  /** Splitting undoes joining, for a non-empty list of separator-free parts. */
  lemma {:induction false} SplitJoin(parts: seq<string>, sep: char)
    requires |parts| > 0
    requires forall k :: 0 <= k < |parts| ==> sep !in parts[k]
    ensures Split(Join(parts, sep), sep) == parts
  {
    if |parts| == 1 {
      SplitWithoutSep(parts[0], sep);
    } else {
      SplitJoin(parts[1..], sep);
      SplitAfterPiece(parts[0], sep, Join(parts[1..], sep));
      assert [parts[0]] + parts[1..] == parts;
    }
  }

  /** Joining undoes splitting, for every string. */
  lemma {:induction false} JoinSplit(s: string, sep: char)
    ensures Join(Split(s, sep), sep) == s
    decreases |s|
  {
    if |s| > 0 {
      JoinSplit(s[1..], sep);
      JoinSplitStep(s, sep);
    }
  }

  /** One step of `JoinSplit`: the first character is put back in front. */
  lemma JoinSplitStep(s: string, sep: char)
    requires |s| > 0
    requires Join(Split(s[1..], sep), sep) == s[1..]
    ensures Join(Split(s, sep), sep) == s
  {
    var rest := Split(s[1..], sep);
    assert s == [s[0]] + s[1..];
    if s[0] == sep {
      assert Split(s, sep) == [""] + rest;
      JoinFront("", rest, sep);
    } else {
      assert Split(s, sep) == [[s[0]] + rest[0]] + rest[1..];
      JoinFront(rest[0], rest[1..], sep);
      assert [rest[0]] + rest[1..] == rest;
      JoinFront([s[0]] + rest[0], rest[1..], sep);
    }
  }

  /** Joining a first part in front of a list. */
  lemma JoinFront(first: string, rest: seq<string>, sep: char)
    ensures Join([first] + rest, sep) == if |rest| == 0 then first else first + [sep] + Join(rest, sep)
  {
    assert ([first] + rest)[1..] == rest;
  }

  /** The empty list is the one list the round trip loses: it joins to "", which splits
      into one empty piece. */
  lemma EmptyJoinSplitsToOnePiece(sep: char)
    ensures Split(Join([], sep), sep) == [""]
  {
  }
}
