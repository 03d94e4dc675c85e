/** The JavaScript string operations the core relies on, on `seq<char>`. */
module Text {

  /** Position of the first `c` in `s`, or `|s|` when `s` has none
      (String.prototype.indexOf with "not found" as the length). */
  function IndexOf(s: string, c: char): (i: nat)
    ensures i <= |s|
    ensures i < |s| ==> s[i] == c
    ensures forall j :: 0 <= j < i ==> s[j] != c
    ensures i == |s| <==> c !in s
  {
    if s == [] then 0
    else if s[0] == c then 0
    else 1 + IndexOf(s[1..], c)
  }

  /** The first `c` of `a + b` lies in `b` when `a` has none. */
  lemma IndexOfConcat(a: string, b: string, c: char)
    requires c !in a
    ensures IndexOf(a + b, c) == |a| + IndexOf(b, c)
  {
    var j := IndexOf(b, c);
    assert forall k :: 0 <= k < |a| + j ==> (a + b)[k] != c by {
      forall k | 0 <= k < |a| + j ensures (a + b)[k] != c {
        if k >= |a| { assert (a + b)[k] == b[k - |a|]; }
      }
    }
    assert j < |b| ==> (a + b)[|a| + j] == c;
  }

  /** String.prototype.split with a one-character separator: the pieces
      between successive occurrences of `c`; there is always at least one. */
  function Split(s: string, c: char): (parts: seq<string>)
    ensures |parts| >= 1
    ensures forall k :: 0 <= k < |parts| ==> c !in parts[k]
    decreases |s|
  {
    var i := IndexOf(s, c);
    if i == |s| then [s] else [s[..i]] + Split(s[i + 1..], c)
  }

  /** Array.prototype.join with a one-character separator. */
  function Join(parts: seq<string>, c: char): string
    requires |parts| >= 1
  {
    if |parts| == 1 then parts[0] else parts[0] + [c] + Join(parts[1..], c)
  }

  /** Splitting and joining again gives back the original string. */
  lemma {:induction false} JoinSplit(s: string, c: char)
    ensures Join(Split(s, c), c) == s
    decreases |s|
  {
    var i := IndexOf(s, c);
    if i < |s| {
      var p, rest := s[..i], s[i + 1..];
      assert s == p + [c] + rest;
      JoinSplit(rest, c);
      var parts := [p] + Split(rest, c);
      assert Split(s, c) == parts;
      assert parts[1..] == Split(rest, c);
      assert Join(parts, c) == p + [c] + Join(Split(rest, c), c);
    }
  }

  /** Splitting a piece without separator, a separator and the rest yields that piece first. */
  lemma SplitCons(p: string, tail: string, c: char)
    requires c !in p
    ensures Split(p + [c] + tail, c) == [p] + Split(tail, c)
  {
    var s := p + [c] + tail;
    assert s == p + ([c] + tail);
    IndexOfConcat(p, [c] + tail, c);
    assert s[..|p|] == p;
    assert s[|p| + 1..] == tail;
  }

  /** Joining pieces that hold no separator and splitting again gives back the pieces,
      so Split is the inverse of Join on such lists. */
  lemma {:induction false} SplitJoin(parts: seq<string>, c: char)
    requires |parts| >= 1
    requires forall k :: 0 <= k < |parts| ==> c !in parts[k]
    ensures Split(Join(parts, c), c) == parts
  {
    if |parts| > 1 {
      assert c !in parts[0];
      SplitJoin(parts[1..], c);
      SplitCons(parts[0], Join(parts[1..], c), c);
      assert parts == [parts[0]] + parts[1..];
    } else {
      assert c !in parts[0];
    }
  }

  /** String.prototype.slice(0, n): the first `n` characters, or all of them. */
  function Take(s: string, n: nat): (r: string)
    ensures |r| <= n && r <= s
    ensures |s| >= n ==> |r| == n
    ensures |s| < n ==> r == s
  {
    if |s| <= n then s else s[..n]
  }

  /** toUpperCase on one character of the ASCII range. */
  function UpperChar(ch: char): char {
    if 'a' <= ch <= 'z' then (ch as int - 32) as char else ch
  }

  /** String.prototype.toUpperCase, for the ASCII letters the core uses. */
  function ToUpperAscii(s: string): (r: string)
    ensures |r| == |s|
    ensures forall k :: 0 <= k < |s| ==> r[k] == UpperChar(s[k])
  {
    if s == [] then [] else [UpperChar(s[0])] + ToUpperAscii(s[1..])
  }
}
