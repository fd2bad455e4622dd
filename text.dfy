/** The few Python string operations the handlers rely on: `str.strip()`,
    `str.split(sep, 1)` unpacked into two names, and `str.split(sep)[-1]`. */
module Text {
  import opened Wrappers

  /** Python 3's `str.isspace()` for a single character: the Unicode
      whitespace set that `str.strip()` removes. */
  predicate IsSpace(c: char) {
    var n := c as int;
    || n == 0x20 || 0x09 <= n <= 0x0D || 0x1C <= n <= 0x1F
    || n == 0x85 || n == 0xA0 || n == 0x1680
    || 0x2000 <= n <= 0x200A || n == 0x2028 || n == 0x2029
    || n == 0x202F || n == 0x205F || n == 0x3000
  }

  /** `s.lstrip()`: the longest suffix of `s` that does not start with whitespace. */
  function LStrip(s: string): (r: string)
    ensures |r| <= |s| && r == s[|s| - |r|..]
    ensures forall k :: 0 <= k < |s| - |r| ==> IsSpace(s[k])
    ensures r == [] || !IsSpace(r[0])
  {
    if |s| > 0 && IsSpace(s[0]) then LStrip(s[1..]) else s
  }

  /** `s.rstrip()`: the longest prefix of `s` that does not end with whitespace. */
  function RStrip(s: string): (r: string)
    ensures |r| <= |s| && r == s[..|r|]
    ensures forall k :: |r| <= k < |s| ==> IsSpace(s[k])
    ensures r == [] || !IsSpace(r[|r| - 1])
  {
    if |s| > 0 && IsSpace(s[|s| - 1]) then RStrip(s[..|s| - 1]) else s
  }

  /** `s.strip()`: a slice of `s` whose ends are not whitespace and outside of
      which everything is whitespace. */
  function Strip(s: string): (r: string)
    ensures StripStart(s) + |r| <= |s|
    ensures r == s[StripStart(s)..StripStart(s) + |r|]
    ensures forall k :: 0 <= k < StripStart(s) ==> IsSpace(s[k])
    ensures forall k :: StripStart(s) + |r| <= k < |s| ==> IsSpace(s[k])
    ensures r == [] || (!IsSpace(r[0]) && !IsSpace(r[|r| - 1]))
  {
    RStrip(LStrip(s))
  }

  /** Number of leading characters that `Strip` drops. */
  function StripStart(s: string): nat
    ensures StripStart(s) <= |s|
  {
    |s| - |LStrip(s)|
  }

  /** A string whose two ends are already free of whitespace is its own strip. */
  lemma {:induction false} StripKeepsTrimmed(s: string)
    requires s == [] || (!IsSpace(s[0]) && !IsSpace(s[|s| - 1]))
    ensures Strip(s) == s
  {
    assert LStrip(s) == s;
  }

  /** Stripping twice is stripping once. */
  lemma {:induction false} StripIdempotent(s: string)
    ensures Strip(Strip(s)) == Strip(s)
  {
    StripKeepsTrimmed(Strip(s));
  }

  /** A string made only of whitespace strips to the empty string. */
  lemma {:induction false} StripAllSpace(s: string)
    requires forall k :: 0 <= k < |s| ==> IsSpace(s[k])
    ensures Strip(s) == []
  {
  }

  /** Index of the first occurrence of `c` in `s`, as `str.find` without the -1. */
  function FindFirst(s: string, c: char): (r: Option<nat>)
    ensures r.None? <==> c !in s
    ensures r.Some? ==> r.value < |s| && s[r.value] == c && c !in s[..r.value]
  {
    if |s| == 0 then None
    else if s[0] == c then Some(0)
    else match FindFirst(s[1..], c)
      case None => None
      case Some(i) => (assert s[1..][..i] == s[1..i + 1]; Some(i + 1))
  }

  /** `a, b = s.split(c, 1)`: `None` when `c` does not occur (Python then
      raises ValueError because one value cannot be unpacked into two). */
  function SplitFirst(s: string, c: char): (r: Option<(string, string)>)
    ensures r.None? <==> c !in s
    ensures r.Some? ==> s == r.value.0 + [c] + r.value.1 && c !in r.value.0
  {
    match FindFirst(s, c)
    case None => None
    case Some(i) => (assert s == s[..i] + [c] + s[i + 1..]; Some((s[..i], s[i + 1..])))
  }

  /** Splitting a joined pair at its first separator gives the pair back,
      provided the separator does not occur in the first half. */
  lemma SplitFirstJoin(a: string, c: char, b: string)
    requires c !in a
    ensures SplitFirst(a + [c] + b, c) == Some((a, b))
  {
    var s := a + [c] + b;
    assert s[|a|] == c;
    var i := FindFirst(s, c).value;
    assert s[..i] == a;
    assert s[i + 1..] == b;
  }

  /** `s.split(sep)[-1]`: the text after the last `sep`, or all of `s`. */
  function LastSegment(s: string, sep: char): (r: string)
    ensures |r| <= |s| && r == s[|s| - |r|..]
    ensures sep !in r
    ensures |r| < |s| ==> s[|s| - |r| - 1] == sep
  {
    if |s| == 0 || s[|s| - 1] == sep then []
    else
      var r := LastSegment(s[..|s| - 1], sep);
      assert s[..|s| - 1][|s| - 1 - |r|..] + [s[|s| - 1]] == s[|s| - |r| - 1..];
      r + [s[|s| - 1]]
  }

  /** Without the separator, the last segment is the whole string. */
  lemma LastSegmentWhole(s: string, sep: char)
    requires sep !in s
    ensures LastSegment(s, sep) == s
  {
  }

  /** The last segment of `prefix + sep + id` is `id` when `id` holds no separator. */
  lemma {:induction false} LastSegmentAfterSeparator(prefix: string, sep: char, id: string)
    requires sep !in id
    ensures LastSegment(prefix + [sep] + id, sep) == id
  {
    var s := prefix + [sep] + id;
    if id != [] {
      var init := id[..|id| - 1];
      assert s[..|s| - 1] == prefix + [sep] + init;
      assert id[|id| - 1] in id;
      LastSegmentAfterSeparator(prefix, sep, init);
      assert init + [id[|id| - 1]] == id;
    }
  }
}
