/** The parts of Go's `strings` package that the key, digest and reference code uses. */
module Text {

  datatype Option<+T> = None | Some(value: T)

  /** unicode.IsSpace */
  predicate IsSpace(c: char) {
    var n := c as int;
    9 <= n <= 13 || n == 32 || n == 0x85 || n == 0xA0 || n == 0x1680 || 0x2000 <= n <= 0x200a
    || n == 0x2028 || n == 0x2029 || n == 0x202f || n == 0x205f || n == 0x3000
  }

  predicate IsSlash(c: char) {
    c == '/'
  }

  function TrimLeft(s: string, cut: char -> bool): string {
    if s == [] || !cut(s[0]) then s else TrimLeft(s[1..], cut)
  }

  function TrimRight(s: string, cut: char -> bool): string {
    if s == [] || !cut(s[|s| - 1]) then s else TrimRight(s[..|s| - 1], cut)
  }

  function Trim(s: string, cut: char -> bool): string {
    TrimRight(TrimLeft(s, cut), cut)
  }

  /** A string that trimming leaves alone. */
  predicate Trimmed(s: string, cut: char -> bool) {
    s == [] || (!cut(s[0]) && !cut(s[|s| - 1]))
  }

  lemma {:induction false} TrimLeftStops(s: string, cut: char -> bool)
    ensures TrimLeft(s, cut) == [] || !cut(TrimLeft(s, cut)[0])
  {
    if s != [] && cut(s[0]) {
      TrimLeftStops(s[1..], cut);
    }
  }

  lemma {:induction false} TrimRightStops(s: string, cut: char -> bool)
    ensures TrimRight(s, cut) <= s
    ensures var r := TrimRight(s, cut); r == [] || !cut(r[|r| - 1])
  {
    if s != [] && cut(s[|s| - 1]) {
      TrimRightStops(s[..|s| - 1], cut);
    }
  }

  /** Trimming yields a trimmed string, and a trimmed string is a fixed point. */
  lemma TrimIsTrimmed(s: string, cut: char -> bool)
    ensures Trimmed(Trim(s, cut), cut)
    ensures Trimmed(s, cut) ==> Trim(s, cut) == s
  {
    TrimLeftStops(s, cut);
    TrimRightStops(TrimLeft(s, cut), cut);
  }

  /** The position of the first `c`, or `|s|`. */
  function Index(s: string, c: char): (i: nat)
    ensures i <= |s|
    ensures forall j :: 0 <= j < i ==> s[j] != c
    ensures i < |s| ==> s[i] == c
  {
    if s == [] || s[0] == c then 0 else 1 + Index(s[1..], c)
  }

  /** strings.Cut at a single character. */
  function Cut(s: string, c: char): Option<(string, string)> {
    var i := Index(s, c);
    if i == |s| then None else Some((s[..i], s[i + 1..]))
  }

  predicate HasSuffix(s: string, suffix: string) {
    |suffix| <= |s| && s[|s| - |suffix|..] == suffix
  }

  /** strings.Split on one character: never empty. */
  function Split(s: string, sep: char): (parts: seq<string>)
    ensures |parts| > 0
  {
    var i := Index(s, sep);
    if i == |s| then [s] else [s[..i]] + Split(s[i + 1..], sep)
  }

  function Join(parts: seq<string>, sep: char): string {
    if |parts| == 0 then []
    else if |parts| == 1 then parts[0]
    else parts[0] + [sep] + Join(parts[1..], sep)
  }

  /** Parts that a split can produce. */
  predicate SepFree(parts: seq<string>, sep: char) {
    forall i :: 0 <= i < |parts| ==> sep !in parts[i]
  }

  lemma {:induction false} SplitSepFree(s: string, sep: char)
    ensures SepFree(Split(s, sep), sep)
    decreases |s|
  {
    var i := Index(s, sep);
    if i < |s| {
      SplitSepFree(s[i + 1..], sep);
    }
  }

  lemma IndexAfter(prefix: string, c: char, rest: string)
    requires c !in prefix
    ensures Index(prefix + [c] + rest, c) == |prefix|
  {
    var s := prefix + [c] + rest;
    assert s[|prefix|] == c;
    assert forall j :: 0 <= j < |prefix| ==> s[j] == prefix[j];
  }

  /** Splitting undoes joining. */
  lemma {:induction false} SplitJoin(parts: seq<string>, sep: char)
    requires |parts| > 0 && SepFree(parts, sep)
    ensures Split(Join(parts, sep), sep) == parts
    decreases |parts|
  {
    if |parts| == 1 {
      assert Index(parts[0], sep) == |parts[0]|;
    } else {
      var rest := Join(parts[1..], sep);
      IndexAfter(parts[0], sep, rest);
      var s := parts[0] + [sep] + rest;
      assert s[..|parts[0]|] == parts[0] && s[|parts[0]| + 1..] == rest;
      SplitJoin(parts[1..], sep);
    }
  }

  lemma JoinCons(head: string, tail: seq<string>, sep: char)
    requires |tail| > 0
    ensures Join([head] + tail, sep) == head + [sep] + Join(tail, sep)
  {
    assert ([head] + tail)[1..] == tail;
  }

  /** Joining undoes splitting. */
  lemma {:induction false} JoinSplit(s: string, sep: char)
    ensures Join(Split(s, sep), sep) == s
    decreases |s|
  {
    var i := Index(s, sep);
    if i < |s| {
      JoinSplit(s[i + 1..], sep);
      JoinCons(s[..i], Split(s[i + 1..], sep), sep);
    }
  }

  /** Joining a concatenation. */
  lemma {:induction false} JoinAppend(a: seq<string>, b: seq<string>, sep: char)
    requires |a| > 0 && |b| > 0
    ensures Join(a + b, sep) == Join(a, sep) + [sep] + Join(b, sep)
    decreases |a|
  {
    if |a| > 1 {
      JoinAppend(a[1..], b, sep);
      assert (a + b)[1..] == a[1..] + b;
    } else {
      assert (a + b)[1..] == b;
    }
  }
}
