/**
 String helpers with the meaning of the Python built-ins the configuration code uses:
 `sep in s`, `s.split(sep)` for a one-character separator, and ASCII `str.lower()`.
 */
module Text {

  /** Index of the first occurrence of `c` in `s`, or `|s|` when `c` does not occur. */
  function IndexOf(s: string, c: char): (r: nat)
    ensures r <= |s|
    ensures r < |s| ==> s[r] == c
    ensures forall j :: 0 <= j < r ==> s[j] != c
    ensures r == |s| <==> c !in s
  {
    if |s| == 0 then 0
    else if s[0] == c then 0
    else 1 + IndexOf(s[1..], c)
  }

  /** The text before the first `c` (all of `s` when there is none). */
  function TextBefore(s: string, c: char): (r: string)
    ensures c !in r
    ensures r <= s
    ensures c !in s ==> r == s
  {
    s[..IndexOf(s, c)]
  }

  /** Python's `s.split(c)`: the pieces of `s` between occurrences of `c`, always at least one. */
  function Split(s: string, c: char): (parts: seq<string>)
    ensures |parts| >= 1
    ensures forall k :: 0 <= k < |parts| ==> c !in parts[k]
    decreases |s|
  {
    var i := IndexOf(s, c);
    if i == |s| then [s]
    else [s[..i]] + Split(s[i + 1..], c)
  }

  /** Python's `c.join(parts)`: the pieces glued back together with `c` between neighbours. */
  function Join(parts: seq<string>, c: char): string
    requires |parts| >= 1
  {
    if |parts| == 1 then parts[0]
    else parts[0] + [c] + Join(parts[1..], c)
  }

  /** `Split` loses nothing: joining the pieces rebuilds the original string. */
  lemma {:induction false} JoinSplit(s: string, c: char)
    ensures Join(Split(s, c), c) == s
    decreases |s|
  {
    var i := IndexOf(s, c);
    if i < |s| {
      var parts := Split(s, c);
      assert parts == [s[..i]] + Split(s[i + 1..], c);
      assert parts[1..] == Split(s[i + 1..], c);
      assert Join(parts, c) == s[..i] + [c] + Join(parts[1..], c);
      JoinSplit(s[i + 1..], c);
      assert s == s[..i] + [c] + s[i + 1..];
    }
  }

  /** Conversely, splitting a join of separator-free pieces gives the pieces back. */
  lemma {:induction false} SplitJoin(parts: seq<string>, c: char)
    requires |parts| >= 1
    requires forall k :: 0 <= k < |parts| ==> c !in parts[k]
    ensures Split(Join(parts, c), c) == parts
  {
    if |parts| > 1 {
      var rest := parts[1..];
      assert Join(parts, c) == parts[0] + [c] + Join(rest, c);
      SplitCons(parts[0], Join(rest, c), c);
      SplitJoin(rest, c);
      assert parts == [parts[0]] + rest;
    }
  }

  /** A separator-free piece followed by the separator splits off as the first piece. */
  lemma SplitCons(first: string, rest: string, c: char)
    requires c !in first
    ensures Split(first + [c] + rest, c) == [first] + Split(rest, c)
  {
    var s := first + [c] + rest;
    var n := |first|;
    assert forall j :: 0 <= j < n ==> s[j] == first[j];
    IndexOfAt(s, c, n);
    assert s[..n] == first;
    assert s[n + 1..] == rest;
  }

  /** The first piece of a split is the text before the first separator. */
  lemma SplitFirst(s: string, c: char)
    ensures Split(s, c)[0] == TextBefore(s, c)
  {
  }

  /** When the separator occurs, the second piece is the text between the first and the second separator. */
  lemma SplitSecond(s: string, c: char)
    requires c in s
    ensures |Split(s, c)| >= 2
    ensures Split(s, c)[1] == TextBefore(s[IndexOf(s, c) + 1..], c)
  {
  }

  /** The first `c` is at `i` when `s[i]` is `c` and no earlier character is. */
  lemma IndexOfAt(s: string, c: char, i: nat)
    requires i < |s| && s[i] == c
    requires forall j :: 0 <= j < i ==> s[j] != c
    ensures IndexOf(s, c) == i
  {
  }

  /** A separator found in a prefix is found at the same place in the whole string. */
  lemma IndexOfInPrefix(s: string, n: nat, c: char)
    requires n <= |s| && c in s[..n]
    ensures IndexOf(s, c) == IndexOf(s[..n], c)
    ensures TextBefore(s, c) == TextBefore(s[..n], c)
  {
  }

  /** ASCII `str.lower()` of one character; every other character is left as it is. */
  function LowerChar(ch: char): (r: char)
    ensures 'A' <= ch <= 'Z' ==> 'a' <= r <= 'z'
    ensures !('A' <= ch <= 'Z') ==> r == ch
  {
    if 'A' <= ch <= 'Z' then (ch as int + 32) as char else ch
  }

  /** ASCII upper case of one character, the inverse direction of `LowerChar` on letters. */
  function UpperChar(ch: char): char
  {
    if 'a' <= ch <= 'z' then (ch as int - 32) as char else ch
  }

  /** ASCII `str.lower()` of a string, character by character. */
  function Lower(s: string): (r: string)
    ensures |r| == |s|
    ensures forall k :: 0 <= k < |s| ==> r[k] == LowerChar(s[k])
  {
    seq(|s|, k requires 0 <= k < |s| => LowerChar(s[k]))
  }

  /** A string with no ASCII upper-case letters. */
  predicate IsLowerCase(w: string)
  {
    forall k :: 0 <= k < |w| ==> !('A' <= w[k] <= 'Z')
  }

  /** `v` spells `w` with any mix of upper and lower case per letter. */
  predicate CaseVariant(v: string, w: string)
  {
    |v| == |w| && forall k :: 0 <= k < |v| ==> v[k] == w[k] || v[k] == UpperChar(w[k])
  }

  /** Lower-casing `v` yields the lower-case word `w` exactly when `v` is a case variant of `w`. */
  lemma LowerIsIffCaseVariant(v: string, w: string)
    requires IsLowerCase(w)
    ensures Lower(v) == w <==> CaseVariant(v, w)
  {
    if CaseVariant(v, w) {
      assert forall k :: 0 <= k < |v| ==> Lower(v)[k] == w[k];
    }
  }
}
