/** Small option type shared by the modules below. */
module Wrappers {
  datatype Option<+T> = None | Some(value: T)
}

/**
 * String facts the request handler relies on: JavaScript's string length,
 * cutting a path into segments at a separator character and rejoining them
 * (as `path.join` does), and the first index of a character.
 * A JavaScript string is modelled as a Dafny `string` (a sequence of Unicode
 * scalar values); its `length` counts UTF-16 code units, so a character outside
 * the Basic Multilingual Plane counts twice.
 */
module Text {

  /** UTF-16 code units JavaScript spends on one character. */
  function CodeUnits(c: char): (n: nat)
    ensures 1 <= n <= 2
    ensures n == 2 <==> c as int >= 0x10000
  {
    if c as int < 0x10000 then 1 else 2
  }

  /** JavaScript's `s.length`: at least one and at most two code units per character. */
  function Utf16Length(s: string): (n: nat)
    ensures |s| <= n <= 2 * |s|
  {
    if s == [] then 0 else CodeUnits(s[0]) + Utf16Length(s[1..])
  }

  predicate InBmp(c: char) { c as int < 0x10000 }

  /** The JavaScript length is between the character count and twice it, and
      equals the character count exactly when no character is astral. */
  lemma {:induction false} Utf16LengthBounds(s: string)
    ensures |s| <= Utf16Length(s) <= 2 * |s|
    ensures Utf16Length(s) == |s| <==> forall i :: 0 <= i < |s| ==> InBmp(s[i])
    ensures Utf16Length(s) == 2 * |s| <==> forall i :: 0 <= i < |s| ==> !InBmp(s[i])
  {
    if s != [] {
      Utf16LengthBounds(s[1..]);
      assert forall i :: 1 <= i < |s| ==> s[i] == s[1..][i - 1];
    }
  }

  /** Index of the first `c` in `s`, or `|s|` when there is none. */
  function IndexOf(s: string, c: char): (i: nat)
    ensures i <= |s|
    ensures i < |s| ==> s[i] == c
    ensures forall k :: 0 <= k < i ==> s[k] != c
  {
    if s == [] then 0
    else if s[0] == c then 0
    else 1 + IndexOf(s[1..], c)
  }

  /** The cutting of a path into segments at each `sep`, as `path.join` does
      before it normalizes: the text before the first `sep`, then the
      segments of the rest. */
  function Split(s: string, sep: char): (parts: seq<string>)
    ensures |parts| >= 1
    decreases |s|
  {
    var i := IndexOf(s, sep);
    if i == |s| then [s] else [s[..i]] + Split(s[i + 1..], sep)
  }

  /** The rejoining of normalized segments with `sep` between them, the last
      step of `path.join`. */
  function Join(parts: seq<string>, sep: char): string
  {
    if |parts| == 0 then ""
    else if |parts| == 1 then parts[0]
    else parts[0] + [sep] + Join(parts[1..], sep)
  }

  lemma SplitNoSeparator(s: string, sep: char)
    requires sep !in s
    ensures Split(s, sep) == [s]
  {
  }

  /** Splitting at the first occurrence of the separator. */
  lemma SplitAt(a: string, sep: char, b: string)
    requires sep !in a
    ensures Split(a + [sep] + b, sep) == [a] + Split(b, sep)
  {
    var s := a + [sep] + b;
    assert s[|a|] == sep;
    assert forall k :: 0 <= k < |a| ==> s[k] == a[k];
    assert IndexOf(s, sep) == |a|;
    assert s[..|a|] == a;
    assert s[|a| + 1..] == b;
  }

  /** Rejoining the segments gives back the path. */
  lemma {:induction false} JoinSplit(s: string, sep: char)
    ensures Join(Split(s, sep), sep) == s
    decreases |s|
  {
    var i := IndexOf(s, sep);
    if i < |s| {
      JoinSplit(s[i + 1..], sep);
      var parts := [s[..i]] + Split(s[i + 1..], sep);
      assert parts[1..] == Split(s[i + 1..], sep);
      assert s == s[..i] + [sep] + s[i + 1..];
    }
  }
}
