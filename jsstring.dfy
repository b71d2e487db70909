/** The few JavaScript string operations the connector relies on, with the
    semantics of ECMAScript's `String.prototype` methods: `endsWith`,
    `startsWith`, `indexOf`, `substring`, `split`, `join` and `trim`. A
    JavaScript string is modelled as a sequence of code points. */
module JsString {
  import opened Wrappers

  /** JavaScript truthiness of an optional string: `undefined`, `null` and
      `''` are falsy. */
  predicate Truthy(s: Option<string>) {
    s.Some? && s.value != ""
  }

  predicate StartsWith(s: string, prefix: string) {
    |prefix| <= |s| && s[..|prefix|] == prefix
  }

  predicate EndsWith(s: string, suffix: string) {
    |suffix| <= |s| && s[|s| - |suffix|..] == suffix
  }

  /** `part` occurs in `s` starting at position `k`. */
  predicate OccursAt(s: string, part: string, k: int) {
    0 <= k <= |s| - |part| && s[k..k + |part|] == part
  }

  /** `s.indexOf(c, from)`: the first position at or after `from` that holds
      `c`, or -1 when there is none. */
  function IndexOfFrom(s: string, c: char, from: nat): (r: int)
    ensures r == -1 || (from <= r < |s| && s[r] == c)
    ensures r == -1 <==> forall i :: from <= i < |s| ==> s[i] != c
    ensures r != -1 ==> forall i :: from <= i < r ==> s[i] != c
    decreases |s| - from
  {
    if from >= |s| then -1
    else if s[from] == c then from
    else IndexOfFrom(s, c, from + 1)
  }

  function Clamp(i: int, n: nat): (r: nat)
    ensures r <= n
  {
    if i < 0 then 0 else if i > n then n else i
  }

  /** `s.substring(start, end)`: both bounds are clamped to `[0, |s|]` and
      swapped when `start` exceeds `end`. */
  function Substring(s: string, start: int, end: int): string
  {
    var a, b := Clamp(start, |s|), Clamp(end, |s|);
    if a <= b then s[a..b] else s[b..a]
  }

  /** `s.split(sep)` for a one-character separator: the maximal runs between
      separators, so there is always at least one (possibly empty) part. */
  function Split(s: string, sep: char): (parts: seq<string>)
    ensures |parts| >= 1
    ensures forall i :: 0 <= i < |parts| ==> sep !in parts[i]
    decreases |s|
  {
    var i := IndexOfFrom(s, sep, 0);
    if i == -1 then [s] else [s[..i]] + Split(s[i + 1..], sep)
  }

  /** `parts.join(sep)`. */
  function Join(parts: seq<string>, sep: char): string
  {
    if |parts| == 0 then ""
    else if |parts| == 1 then parts[0]
    else parts[0] + [sep] + Join(parts[1..], sep)
  }

  /** Joining a first part onto a non-empty rest puts one separator
      between them. */
  lemma JoinCons(head: string, rest: seq<string>, sep: char)
    requires |rest| >= 1
    ensures Join([head] + rest, sep) == head + [sep] + Join(rest, sep)
  {
    assert ([head] + rest)[1..] == rest;
  }

  /** Joining the parts of a split restores the original string. */
  lemma {:induction false} JoinSplit(s: string, sep: char)
    ensures Join(Split(s, sep), sep) == s
    decreases |s|
  {
    var i := IndexOfFrom(s, sep, 0);
    if i != -1 {
      var head, tail := s[..i], s[i + 1..];
      var rest := Split(tail, sep);
      assert s == head + [sep] + tail by {
        assert s[i] == sep;
      }
      calc {
        Join(Split(s, sep), sep);
        { assert Split(s, sep) == [head] + rest; }
        Join([head] + rest, sep);
        { JoinCons(head, rest, sep); }
        head + [sep] + Join(rest, sep);
        { JoinSplit(tail, sep); }
        head + [sep] + tail;
      }
    } else {
      assert Split(s, sep) == [s];
    }
  }

  /** Splitting a join of separator-free parts gives the parts back. */
  lemma {:induction false} SplitJoin(parts: seq<string>, sep: char)
    requires |parts| >= 1
    requires forall i :: 0 <= i < |parts| ==> sep !in parts[i]
    ensures Split(Join(parts, sep), sep) == parts
  {
    if |parts| > 1 {
      var rest := Join(parts[1..], sep);
      var s := parts[0] + [sep] + rest;
      assert s[|parts[0]|] == sep;
      assert forall k :: 0 <= k < |parts[0]| ==> s[k] == parts[0][k];
      assert IndexOfFrom(s, sep, 0) == |parts[0]|;
      assert s[..|parts[0]|] == parts[0];
      assert s[|parts[0]| + 1..] == rest;
      SplitJoin(parts[1..], sep);
    }
  }

  /** Characters removed by `trim`: ECMAScript WhiteSpace and LineTerminator. */
  predicate IsWhitespace(c: char) {
    c == ' ' || c == '\t' || c == '\n' || c == '\r' || c == '\U{000B}' || c == '\U{000C}'
    || c == '\U{00A0}' || c == '\U{1680}' || ('\U{2000}' <= c <= '\U{200A}')
    || c == '\U{2028}' || c == '\U{2029}' || c == '\U{202F}' || c == '\U{205F}'
    || c == '\U{3000}' || c == '\U{FEFF}'
  }

  function TrimStart(s: string): (r: string)
    ensures EndsWith(s, r)
    ensures r == "" || !IsWhitespace(r[0])
    ensures forall i :: 0 <= i < |s| - |r| ==> IsWhitespace(s[i])
  {
    if |s| > 0 && IsWhitespace(s[0]) then TrimStart(s[1..]) else s
  }

  function TrimEnd(s: string): (r: string)
    ensures StartsWith(s, r)
    ensures r == "" || !IsWhitespace(r[|r| - 1])
    ensures forall i :: |r| <= i < |s| ==> IsWhitespace(s[i])
  {
    if |s| > 0 && IsWhitespace(s[|s| - 1]) then TrimEnd(s[..|s| - 1]) else s
  }

  /** `r` is `s` with the whitespace before position `k` and after
      `k + |r|` removed. */
  predicate TrimmedAt(s: string, r: string, k: int) {
    && OccursAt(s, r, k)
    && (forall i :: 0 <= i < k ==> IsWhitespace(s[i]))
    && (forall i :: k + |r| <= i < |s| ==> IsWhitespace(s[i]))
  }

  /** `s.trim()`: `s` without its leading and trailing whitespace, and with
      nothing else removed. */
  function Trim(s: string): (r: string)
    ensures r == "" || (!IsWhitespace(r[0]) && !IsWhitespace(r[|r| - 1]))
    ensures exists k :: TrimmedAt(s, r, k)
    ensures r == "" <==> forall i :: 0 <= i < |s| ==> IsWhitespace(s[i])
  {
    var t := TrimStart(s);
    var r := TrimEnd(t);
    var k := |s| - |t|;
    assert TrimmedAt(s, r, k) by {
      assert t == s[k..];
      assert r == t[..|r|];
      forall i | k + |r| <= i < |s|
        ensures IsWhitespace(s[i])
      {
        assert s[i] == t[i - k];
      }
    }
    r
  }
}
