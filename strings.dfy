/**
 * The pieces of Go's `strings` and `bufio` packages that the client relies on,
 * stated on `string` (a sequence of Unicode characters).
 */
module Strings {
  import opened Wrappers

  predicate HasPrefix(s: string, p: string) {
    |p| <= |s| && s[..|p|] == p
  }

  predicate HasSuffix(s: string, p: string) {
    |p| <= |s| && s[|s| - |p|..] == p
  }

  /** `strings.Count(s, string(c))`: the number of occurrences of `c` in `s`. */
  function Count(s: string, c: char): nat {
    if s == [] then 0 else (if s[0] == c then 1 else 0) + Count(s[1..], c)
  }

  /** `strings.IndexByte`: the first position of `c`, or -1 when there is none. */
  function IndexOf(s: string, c: char): (r: int)
    ensures -1 <= r < |s|
    ensures r >= 0 ==> s[r] == c && c !in s[..r]
    ensures r < 0 ==> c !in s
  {
    if s == [] then -1
    else if s[0] == c then 0
    else
      var j := IndexOf(s[1..], c);
      if j < 0 then -1 else j + 1
  }

  lemma {:induction false} CountAbsent(s: string, c: char)
    requires c !in s
    ensures Count(s, c) == 0
  {
    if s != [] {
      assert s[0] != c;
      assert c !in s[1..];
      CountAbsent(s[1..], c);
    }
  }

  /** When `i` is the first occurrence of `c`, everything before it contributes nothing to the count. */
  lemma {:induction false} CountAt(s: string, c: char, i: nat)
    requires i < |s| && s[i] == c && c !in s[..i]
    ensures Count(s, c) == 1 + Count(s[i + 1..], c)
  {
    if i > 0 {
      assert s[0] == s[..i][0];
      assert s[1..][..i - 1] == s[1..i];
      assert forall k :: 0 <= k < i - 1 ==> s[1..i][k] == s[..i][k + 1];
      assert s[1..][i - 1 + 1..] == s[i + 1..];
      CountAt(s[1..], c, i - 1);
    }
  }

  /** `strings.Split(s, string(c))`: the pieces between the occurrences of `c`. */
  function Split(s: string, c: char): (parts: seq<string>)
    ensures |parts| == Count(s, c) + 1
    ensures forall k :: 0 <= k < |parts| ==> c !in parts[k]
    decreases |s|
  {
    var i := IndexOf(s, c);
    if i < 0 then
      CountAbsent(s, c);
      [s]
    else
      CountAt(s, c, i);
      [s[..i]] + Split(s[i + 1..], c)
  }

  /** `strings.Join(parts, sep)`. */
  function Join(parts: seq<string>, sep: string): string {
    if |parts| == 0 then ""
    else if |parts| == 1 then parts[0]
    else parts[0] + sep + Join(parts[1..], sep)
  }

  /** Joining the pieces of a split with the separator gives back the original string. */
  lemma {:induction false} JoinSplit(s: string, c: char)
    ensures Join(Split(s, c), [c]) == s
    decreases |s|
  {
    var i := IndexOf(s, c);
    if i >= 0 {
      var head, tail := s[..i], s[i + 1..];
      var rest := Split(tail, c);
      JoinSplit(tail, c);
      var parts := Split(s, c);
      assert parts == [head] + rest;
      JoinCons(head, rest, [c]);
      assert Join(parts, [c]) == head + [c] + tail;
      assert s == head + [c] + tail;
    } else {
      assert Split(s, c) == [s];
    }
  }

  lemma JoinCons(x: string, rest: seq<string>, sep: string)
    requires |rest| > 0
    ensures Join([x] + rest, sep) == x + sep + Join(rest, sep)
  {
    assert ([x] + rest)[1..] == rest;
  }

  /** The first position at which `p` occurs in `s`. */
  function Find(s: string, p: string): (r: Option<nat>)
    ensures r.Some? ==> r.value + |p| <= |s| && s[r.value..r.value + |p|] == p
    decreases |s|
  {
    if HasPrefix(s, p) then Some(0)
    else if s == [] then None
    else
      match Find(s[1..], p)
      case None => None
      case Some(j) => Some(j + 1)
  }

  /** `strings.Replace(s, old, new, 1)`: the first occurrence of `pattern` replaced by `replacement`. */
  function ReplaceFirst(s: string, pattern: string, replacement: string): string {
    match Find(s, pattern)
    case None => s
    case Some(i) => s[..i] + replacement + s[i + |pattern|..]
  }

  /** Replacing a prefix by nothing removes it. */
  lemma RemovePrefix(s: string, p: string)
    requires HasPrefix(s, p)
    ensures ReplaceFirst(s, p, "") == s[|p|..]
  {
    assert Find(s, p) == Some(0);
    assert "" + s[|p|..] == s[|p|..];
  }

  /** `unicode.IsSpace`, the set of characters `strings.TrimSpace` removes. */
  predicate IsSpace(c: char) {
    c == '\t' || c == '\n' || c == '\U{0B}' || c == '\U{0C}' || c == '\r' || c == ' '
    || c == '\U{85}' || c == '\U{A0}' || c == '\U{1680}' || ('\U{2000}' <= c <= '\U{200A}')
    || c == '\U{2028}' || c == '\U{2029}' || c == '\U{202F}' || c == '\U{205F}' || c == '\U{3000}'
  }

  /** `s` without its leading white space: a suffix of `s` that does not start with a space. */
  function TrimLeft(s: string): (r: string)
    ensures |r| <= |s| && r == s[|s| - |r|..]
    ensures forall k :: 0 <= k < |s| - |r| ==> IsSpace(s[k])
    ensures r == [] || !IsSpace(r[0])
  {
    if s != [] && IsSpace(s[0]) then TrimLeft(s[1..]) else s
  }

  /** `s` without its trailing white space: a prefix of `s` that does not end with a space. */
  function TrimRight(s: string): (r: string)
    ensures |r| <= |s| && r == s[..|r|]
    ensures forall k :: |r| <= k < |s| ==> IsSpace(s[k])
    ensures r == [] || !IsSpace(r[|r| - 1])
  {
    if s != [] && IsSpace(s[|s| - 1]) then TrimRight(s[..|s| - 1]) else s
  }

  /** `strings.TrimSpace`. */
  function TrimSpace(s: string): string {
    TrimRight(TrimLeft(s))
  }

  predicate Trimmed(s: string) {
    s == [] || (!IsSpace(s[0]) && !IsSpace(s[|s| - 1]))
  }

  /** A string with no surrounding white space is its own trimming, so trimming is idempotent. */
  lemma TrimSpaceOfTrimmed(s: string)
    requires Trimmed(s)
    ensures TrimSpace(s) == s
  {
  }

  lemma TrimSpaceIsTrimmed(s: string)
    ensures Trimmed(TrimSpace(s))
  {
    var l := TrimLeft(s);
    var r := TrimRight(l);
    if r != [] {
      assert r == l[..|r|];
      assert r[0] == l[0];
    }
  }

  lemma {:induction false} TrimLeftAppendSpace(s: string, c: char)
    requires IsSpace(c)
    ensures TrimLeft(s + [c]) == if TrimLeft(s) == [] then [] else TrimLeft(s) + [c]
  {
    if s == [] {
      assert TrimLeft([c]) == TrimLeft([c][1..]);
    } else if IsSpace(s[0]) {
      assert (s + [c])[1..] == s[1..] + [c];
      TrimLeftAppendSpace(s[1..], c);
    }
  }

  /** A trailing space never survives trimming. */
  lemma TrimSpaceAppendSpace(s: string, c: char)
    requires IsSpace(c)
    ensures TrimSpace(s + [c]) == TrimSpace(s)
  {
    TrimLeftAppendSpace(s, c);
    var l := TrimLeft(s);
    if l != [] {
      assert (l + [c])[..|l + [c]| - 1] == l;
    }
  }

  /** `bufio.ScanLines` drops one carriage return at the end of each line. */
  function DropCR(s: string): string {
    if |s| > 0 && s[|s| - 1] == '\r' then s[..|s| - 1] else s
  }

  lemma TrimSpaceDropCR(s: string)
    ensures TrimSpace(DropCR(s)) == TrimSpace(s)
  {
    if |s| > 0 && s[|s| - 1] == '\r' {
      assert s == s[..|s| - 1] + ['\r'];
      TrimSpaceAppendSpace(s[..|s| - 1], '\r');
    }
  }

  lemma DropCRAfter(p: string, s: string)
    requires |p| > 0 && p[|p| - 1] != '\r'
    ensures DropCR(p + s) == p + DropCR(s)
  {
    if |s| > 0 && s[|s| - 1] == '\r' {
      assert (p + s)[..|p + s| - 1] == p + s[..|s| - 1];
    }
  }

  /**
   * The tokens `bufio.Scanner` yields with its default `ScanLines` split: the text between
   * newlines, each without a final carriage return, and a last unterminated line when the
   * input does not end in a newline. No token contains a newline.
   */
  function Lines(s: string): (lines: seq<string>)
    ensures forall k :: 0 <= k < |lines| ==> '\n' !in lines[k]
    decreases |s|
  {
    if s == [] then []
    else
      var i := IndexOf(s, '\n');
      if i < 0 then [DropCR(s)] else [DropCR(s[..i])] + Lines(s[i + 1..])
  }

  /** A newline-terminated line comes out of the scanner as one token. */
  lemma LinesOfTerminated(a: string, rest: string)
    requires '\n' !in a
    ensures Lines(a + "\n" + rest) == [DropCR(a)] + Lines(rest)
  {
    var s := a + "\n" + rest;
    var i := IndexOf(s, '\n');
    assert s[|a|] == '\n';
    assert forall k :: 0 <= k < |a| ==> s[k] == a[k];
    assert i == |a|;
    assert s[..i] == a;
    assert s[i + 1..] == rest;
  }
}
