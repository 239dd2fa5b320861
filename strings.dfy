/**
  The few functions of Go's `strings` package that the core relies on:
  `Index`, `Contains`, `Count`, `Split`, `Join` and `TrimSpace`, stated for a
  non-empty separator (every call site in the core passes a literal one).
 */
module Strings {

  /** `sep` occurs in `s` starting at position `j`. */
  predicate OccursAt(s: string, sep: string, j: int)
  {
    0 <= j && j + |sep| <= |s| && s[j..j + |sep|] == sep
  }

  /** strings.Index: the position of the first occurrence of `sep` in `s`, or -1
      (IndexSpec states that it is the first occurrence). */
  function Index(s: string, sep: string): (i: int)
    requires sep != []
    ensures i == -1 || 0 <= i <= |s| - |sep|
    decreases |s|
  {
    if |s| < |sep| then -1
    else if s[..|sep|] == sep then 0
    else
      var k := Index(s[1..], sep);
      if k < 0 then -1 else k + 1
  }

  /** Index finds an occurrence, no earlier one exists, and -1 means that there is none. */
  lemma {:induction false} IndexSpec(s: string, sep: string)
    requires sep != []
    ensures Index(s, sep) >= 0 ==> OccursAt(s, sep, Index(s, sep))
    ensures Index(s, sep) >= 0 ==> forall j :: 0 <= j < Index(s, sep) ==> !OccursAt(s, sep, j)
    ensures Index(s, sep) < 0 ==> forall j :: !OccursAt(s, sep, j)
    decreases |s|
  {
    if |s| < |sep| {
      forall j ensures !OccursAt(s, sep, j) {
      }
    } else if s[..|sep|] == sep {
      assert OccursAt(s, sep, 0);
    } else {
      IndexSpec(s[1..], sep);
      forall j | 1 <= j ensures OccursAt(s, sep, j) <==> OccursAt(s[1..], sep, j - 1) {
        if j + |sep| <= |s| {
          assert s[1..][j - 1..j - 1 + |sep|] == s[j..j + |sep|];
        }
      }
      assert !OccursAt(s, sep, 0);
    }
  }

  /** strings.Contains. */
  predicate Contains(s: string, sep: string)
    requires sep != []
  {
    Index(s, sep) >= 0
  }

  /** strings.Count: the number of non-overlapping occurrences of `sep`, leftmost first. */
  function Count(s: string, sep: string): (n: nat)
    requires sep != []
    decreases |s|
  {
    var i := Index(s, sep);
    if i < 0 then 0 else 1 + Count(s[i + |sep|..], sep)
  }

  /** strings.Split: the pieces of `s` between the non-overlapping occurrences of `sep`. */
  function Split(s: string, sep: string): (parts: seq<string>)
    requires sep != []
    ensures |parts| >= 1
    decreases |s|
  {
    var i := Index(s, sep);
    if i < 0 then [s] else [s[..i]] + Split(s[i + |sep|..], sep)
  }

  /** strings.Join: the pieces with `sep` between consecutive ones. */
  function Join(parts: seq<string>, sep: string): (joined: string)
  {
    if |parts| == 0 then ""
    else if |parts| == 1 then parts[0]
    else parts[0] + sep + Join(parts[1..], sep)
  }

  /** Go's unicode.IsSpace: the characters with the Unicode White_Space property. */
  predicate IsSpace(c: char)
  {
    || c == ' ' || ('\t' <= c <= '\r') || c == '\U{85}' || c == '\U{A0}' || c == '\U{1680}'
    || ('\U{2000}' <= c <= '\U{200A}') || c == '\U{2028}' || c == '\U{2029}' || c == '\U{202F}'
    || c == '\U{205F}' || c == '\U{3000}'
  }

  /** The suffix of `s` that remains after its leading white space is dropped. */
  function TrimLeft(s: string): (r: string)
    ensures |r| <= |s| && r == s[|s| - |r|..]
    ensures forall i :: 0 <= i < |s| - |r| ==> IsSpace(s[i])
    ensures r == [] || !IsSpace(r[0])
  {
    if s != [] && IsSpace(s[0]) then TrimLeft(s[1..]) else s
  }

  /** The prefix of `s` that remains after its trailing white space is dropped. */
  function TrimRight(s: string): (r: string)
    ensures |r| <= |s| && r == s[..|r|]
    ensures forall i :: |r| <= i < |s| ==> IsSpace(s[i])
    ensures r == [] || !IsSpace(r[|r| - 1])
  {
    if s != [] && IsSpace(s[|s| - 1]) then TrimRight(s[..|s| - 1]) else s
  }

  /** strings.TrimSpace: `s` without leading and trailing white space. */
  function TrimSpace(s: string): (r: string)
    ensures r == [] || (!IsSpace(r[0]) && !IsSpace(r[|r| - 1]))
  {
    TrimRight(TrimLeft(s))
  }

  /** For a one-character separator, Contains is plain membership. */
  lemma ContainsChar(s: string, c: char)
    ensures Contains(s, [c]) <==> c in s
  {
    IndexSpec(s, [c]);
    var i := Index(s, [c]);
    if i >= 0 {
      assert s[i..i + 1] == [c];
      assert s[i] == c;
    } else {
      forall j | 0 <= j < |s| ensures s[j] != c {
        assert !OccursAt(s, [c], j);
        assert s[j..j + 1] == [s[j]];
      }
    }
  }

  /** For a one-character separator, Index is the first position of that character. */
  lemma IndexChar(s: string, c: char)
    requires c in s
    ensures 0 <= Index(s, [c]) < |s| && s[Index(s, [c])] == c && c !in s[..Index(s, [c])]
  {
    ContainsChar(s, c);
    IndexSpec(s, [c]);
    var i := Index(s, [c]);
    assert s[i..i + 1][0] == s[i];
    forall j | 0 <= j < i ensures s[j] != c {
      assert !OccursAt(s, [c], j);
      assert s[j..j + 1] == [s[j]];
    }
  }

  /** A string free of the separator stays one piece. */
  lemma SplitCharNone(s: string, c: char)
    requires c !in s
    ensures Split(s, [c]) == [s]
  {
    ContainsChar(s, c);
  }

  /** Cutting at the first separator: the head piece, then the pieces of the rest. */
  lemma SplitCharConcat(a: string, c: char, b: string)
    requires c !in a
    ensures Split(a + [c] + b, [c]) == [a] + Split(b, [c])
  {
    var s := a + [c] + b;
    IndexChar(s, c);
    var i := Index(s, [c]);
    assert s[..|a|] == a && s[|a|] == c;
    assert i == |a|;
    assert s[|a| + 1..] == b;
  }

  /** The head piece of a split on one character is a prefix free of that character,
      and stops exactly at its first occurrence when there is one. */
  lemma SplitCharHead(s: string, c: char)
    ensures var h := Split(s, [c])[0];
      && |h| <= |s| && h == s[..|h|] && c !in h
      && (c in s ==> |h| < |s| && s[|h|] == c)
  {
    if c in s {
      IndexChar(s, c);
    } else {
      SplitCharNone(s, c);
    }
  }

  /** No piece of a split on one character contains that character. */
  lemma {:induction false} SplitCharPieces(s: string, c: char)
    ensures forall k :: 0 <= k < |Split(s, [c])| ==> c !in Split(s, [c])[k]
    decreases |s|
  {
    if c in s {
      IndexChar(s, c);
      var i := Index(s, [c]);
      var rest := s[i + 1..];
      SplitCharPieces(rest, c);
      var parts := Split(s, [c]);
      assert parts == [s[..i]] + Split(rest, [c]);
      forall k | 0 <= k < |parts| ensures c !in parts[k] {
        if k > 0 { assert parts[k] == Split(rest, [c])[k - 1]; }
      }
    } else {
      SplitCharNone(s, c);
    }
  }

  /** Split returns one more piece than there are separators (Go's documented contract). */
  lemma {:induction false} SplitLength(s: string, sep: string)
    requires sep != []
    ensures |Split(s, sep)| == Count(s, sep) + 1
    decreases |s|
  {
    var i := Index(s, sep);
    if i >= 0 {
      var rest := s[i + |sep|..];
      SplitLength(rest, sep);
      assert Split(s, sep) == [s[..i]] + Split(rest, sep);
      assert Count(s, sep) == 1 + Count(rest, sep);
    } else {
      assert Split(s, sep) == [s];
      assert Count(s, sep) == 0;
    }
  }

  /** Join of a piece followed by at least one more. */
  lemma JoinCons(a: string, tail: seq<string>, sep: string)
    requires |tail| >= 1
    ensures Join([a] + tail, sep) == a + sep + Join(tail, sep)
  {
    assert ([a] + tail)[1..] == tail;
  }

  /** A string is the text before an occurrence, the occurrence, and the text after it. */
  lemma Reassemble(s: string, sep: string, i: int)
    requires OccursAt(s, sep, i)
    ensures s[..i] + sep + s[i + |sep|..] == s
  {
    assert s[i..] == s[i..i + |sep|] + s[i + |sep|..];
    assert s == s[..i] + s[i..];
  }

  /** Joining the pieces of a split with the same separator gives the string back. */
  lemma {:induction false} JoinSplit(s: string, sep: string)
    requires sep != []
    ensures Join(Split(s, sep), sep) == s
    decreases |s|
  {
    var i := Index(s, sep);
    if i >= 0 {
      var rest := s[i + |sep|..];
      var tail := Split(rest, sep);
      JoinSplit(rest, sep);
      assert Split(s, sep) == [s[..i]] + tail;
      JoinCons(s[..i], tail, sep);
      IndexSpec(s, sep);
      Reassemble(s, sep, i);
      calc {
        Join(Split(s, sep), sep);
        Join([s[..i]] + tail, sep);
        s[..i] + sep + Join(tail, sep);
        s[..i] + sep + rest;
        s;
      }
    }
  }
}
