/** String helpers the pipeline relies on, each modelling one JavaScript built-in the
    source uses: `Array.prototype.join`, `String.prototype.substring`, and the decimal
    rendering of a number inside a template literal. The line-splitting and prefix
    helpers serve the front-matter reader in module Render. */
module Text {
  import opened Wrappers

  function Min(a: int, b: int): int {
    if a <= b then a else b
  }

  // ---------------------------------------------------------------------------
  // Decimal rendering of a count

  predicate IsDigit(c: char) {
    '0' <= c <= '9'
  }

  predicate AllDigits(s: string) {
    forall i :: 0 <= i < |s| ==> IsDigit(s[i])
  }

  function DigitChar(d: nat): (c: char)
    requires d < 10
    ensures IsDigit(c)
  {
    ('0' as int + d) as char
  }

  function DigitValue(c: char): nat
    requires IsDigit(c)
  {
    c as int - '0' as int
  }

  /** The decimal form of `n` without leading zeros, as a template literal renders
      a non-negative integer such as an array length. */
  function NatToString(n: nat): (r: string)
    ensures 1 <= |r|
    ensures AllDigits(r)
    ensures r[0] == '0' ==> n == 0
    decreases n
  {
    if n < 10 then [DigitChar(n)] else NatToString(n / 10) + [DigitChar(n % 10)]
  }

  /** Reads a string of decimal digits back as a number; the partner of NatToString. */
  function ParseDecimal(s: string): nat
    requires AllDigits(s)
    decreases |s|
  {
    if s == [] then 0 else 10 * ParseDecimal(s[..|s| - 1]) + DigitValue(s[|s| - 1])
  }

  /** Rendering a count and reading it back gives the count: the rendering loses nothing. */
  lemma {:induction false} ParseNatToString(n: nat)
    ensures ParseDecimal(NatToString(n)) == n
    decreases n
  {
    if n >= 10 {
      var r := NatToString(n);
      assert r[..|r| - 1] == NatToString(n / 10);
      ParseNatToString(n / 10);
    }
  }

  /** Two different counts never render to the same text. */
  lemma NatToStringInjective(m: nat, n: nat)
    requires NatToString(m) == NatToString(n)
    ensures m == n
  {
    ParseNatToString(m);
    ParseNatToString(n);
  }

  // ---------------------------------------------------------------------------
  // Array.prototype.join

  /** Sum of the lengths of `parts`. */
  function TotalLength(parts: seq<string>): nat {
    if parts == [] then 0 else |parts[0]| + TotalLength(parts[1..])
  }

  /** `parts.join(sep)`: the parts in order with `sep` between each neighbouring pair.
      A separator only ever stands between two parts: the empty list joins to the empty
      string and a single part joins to itself. */
  function Join(parts: seq<string>, sep: string): (r: string)
    ensures parts == [] ==> r == ""
    ensures |parts| == 1 ==> r == parts[0]
    decreases |parts|
  {
    if parts == [] then ""
    else if |parts| == 1 then parts[0]
    else parts[0] + sep + Join(parts[1..], sep)
  }

  /** The length of a non-empty join is the total length of its parts plus one separator
      for each neighbouring pair. */
  lemma {:induction false} JoinLength(parts: seq<string>, sep: string)
    requires parts != []
    ensures |Join(parts, sep)| == TotalLength(parts) + (|parts| - 1) * |sep|
    decreases |parts|
  {
    if |parts| > 1 {
      JoinLength(parts[1..], sep);
    }
  }

  /** Joining a concatenation is joining each half and putting one separator between. */
  lemma {:induction false} JoinConcat(a: seq<string>, b: seq<string>, sep: string)
    requires a != [] && b != []
    ensures Join(a + b, sep) == Join(a, sep) + sep + Join(b, sep)
    decreases |a|
  {
    if |a| == 1 {
      assert (a + b)[1..] == b;
    } else {
      assert (a + b)[1..] == a[1..] + b;
      JoinConcat(a[1..], b, sep);
    }
  }

  /** Part `i` sits in the joined string directly after the join of the parts before it
      (and one separator when there are any), and directly before the join of the parts
      after it (preceded by one separator when there are any). */
  lemma JoinAt(parts: seq<string>, sep: string, i: nat)
    requires i < |parts|
    ensures Join(parts, sep)
         == (Join(parts[..i], sep) + (if i == 0 then "" else sep))
          + parts[i]
          + ((if i + 1 == |parts| then "" else sep) + Join(parts[i + 1..], sep))
  {
    var before, here, after := parts[..i], [parts[i]], parts[i + 1..];
    assert parts == before + here + after;
    if i > 0 && i + 1 < |parts| {
      JoinConcat(before, here + after, sep);
      assert before + here + after == before + (here + after);
      JoinConcat(here, after, sep);
    } else if i > 0 {
      assert after == [];
      assert parts == before + here;
      JoinConcat(before, here, sep);
    } else if i + 1 < |parts| {
      assert parts == here + after;
      JoinConcat(here, after, sep);
    }
  }

  /** Putting one more part in front of a non-empty join adds it and one separator. */
  lemma JoinCons(x: string, rest: seq<string>, sep: string)
    requires rest != []
    ensures Join([x] + rest, sep) == x + (sep + Join(rest, sep))
  {
    assert ([x] + rest)[1..] == rest;
  }

  /** Five parts joined: each part followed by the separator, except the last. */
  lemma JoinFive(a: string, b: string, c: string, d: string, e: string, sep: string)
    ensures Join([a, b, c, d, e], sep) == a + (sep + (b + (sep + (c + (sep + (d + (sep + e)))))))
  {
    assert Join([d, e], sep) == d + (sep + e) by {
      assert [d, e] == [d] + [e];
      JoinCons(d, [e], sep);
    }
    assert Join([c, d, e], sep) == c + (sep + Join([d, e], sep)) by {
      assert [c, d, e] == [c] + [d, e];
      JoinCons(c, [d, e], sep);
    }
    assert Join([b, c, d, e], sep) == b + (sep + Join([c, d, e], sep)) by {
      assert [b, c, d, e] == [b] + [c, d, e];
      JoinCons(b, [c, d, e], sep);
    }
    assert Join([a, b, c, d, e], sep) == a + (sep + Join([b, c, d, e], sep)) by {
      assert [a, b, c, d, e] == [a] + [b, c, d, e];
      JoinCons(a, [b, c, d, e], sep);
    }
  }

  // ---------------------------------------------------------------------------
  // String.prototype.substring

  /** Clamps a position into [0, len], as `substring` does with each argument. */
  function Clamp(x: int, len: nat): (r: nat)
    ensures r <= len
    ensures 0 <= x <= len ==> r == x
  {
    if x < 0 then 0 else if x > len then len else x
  }

  /** `s.substring(start, end)`: both positions are clamped into [0, |s|] and swapped when
      the first exceeds the second. NaN arguments are not modelled. */
  function JsSubstring(s: string, start: int, end: int): (r: string)
    ensures |r| <= |s|
    ensures 0 <= start <= end <= |s| ==> r == s[start..end]
    ensures 0 <= end <= start <= |s| ==> r == s[end..start]
  {
    var a, b := Clamp(start, |s|), Clamp(end, |s|);
    if a <= b then s[a..b] else s[b..a]
  }

  /** The two positions of `substring` are interchangeable. */
  lemma JsSubstringSymmetric(s: string, start: int, end: int)
    ensures JsSubstring(s, start, end) == JsSubstring(s, end, start)
  {
  }

  // ---------------------------------------------------------------------------
  // Reading text back: prefixes and lines

  /** The rest of `s` after `prefix`, or None when `s` does not start with `prefix`. */
  function StripPrefix(s: string, prefix: string): (r: Option<string>)
    ensures r.Some? <==> (|prefix| <= |s| && s[..|prefix|] == prefix)
    ensures r.Some? ==> s == prefix + r.value
  {
    if |prefix| <= |s| && s[..|prefix|] == prefix then Some(s[|prefix|..]) else None
  }

  /** Stripping a prefix from a string that starts with it leaves the rest. */
  lemma StripPrefixOf(prefix: string, rest: string)
    ensures StripPrefix(prefix + rest, prefix) == Some(rest)
  {
    assert (prefix + rest)[..|prefix|] == prefix;
    assert (prefix + rest)[|prefix|..] == rest;
  }

  /** `x` occurs in `s` starting at position `k`. */
  predicate OccursAt(s: string, x: string, k: int) {
    0 <= k <= |s| - |x| && s[k..k + |x|] == x
  }

  /** `s.includes(x)`: `x` occurs somewhere in `s`. */
  predicate Contains(s: string, x: string) {
    exists k | 0 <= k <= |s| :: OccursAt(s, x, k)
  }

  /** A text holding a character that `s` lacks does not occur in `s`. */
  lemma NoOccurrenceWithout(s: string, x: string, c: char)
    requires c in x && c !in s
    ensures !Contains(s, x)
  {
    var j :| 0 <= j < |x| && x[j] == c;
    forall k | 0 <= k <= |s| - |x|
      ensures !OccursAt(s, x, k)
    {
      assert s[k + j] in s;
    }
  }

  /** A slice of the middle part of a concatenation, read through the whole. */
  lemma SliceOfMiddle(x: string, y: string, z: string, i: nat, j: nat)
    requires i <= j <= |y|
    ensures (x + (y + z))[|x| + i..|x| + j] == y[i..j]
  {
    assert forall k :: |x| + i <= k < |x| + j ==> (x + (y + z))[k] == y[k - |x|];
  }

  /** In `doc == head + ((before + text + after) + tail)`, `text` starts at position
      `k == |head| + |before|`. */
  lemma PieceAt(doc: string, k: nat, head: string, before: string, text: string, after: string, tail: string)
    requires doc == head + ((before + text + after) + tail)
    requires k == |head| + |before|
    ensures k + |text| <= |doc| && doc[k..k + |text|] == text
  {
    InfixAt(before, text, after);
    SliceOfMiddle(head, before + text + after, tail, |before|, |before| + |text|);
  }

  /** The middle part of a three-part concatenation sits right after the first part. */
  lemma InfixAt(a: string, b: string, c: string)
    ensures |a| + |b| <= |a + b + c|
    ensures (a + b + c)[|a|..|a| + |b|] == b
  {
  }

  /** `key`, then one line of text, split off the front of `s`: the line and the text
      after it, or None when `s` does not start with `key` or holds no further line feed. */
  function TakeField(s: string, key: string): (r: Option<(string, string)>)
    ensures r.Some? ==> s == key + (r.value.0 + ("\n" + r.value.1)) && '\n' !in r.value.0
  {
    match StripPrefix(s, key)
    case None => None
    case Some(rest) => SplitLine(rest)
  }

  /** A field written as `key`, a line without line feed and a line feed is read back as
      exactly that line, leaving the text after it. */
  lemma TakeFieldOf(key: string, line: string, rest: string)
    requires '\n' !in line
    ensures TakeField(key + (line + ("\n" + rest)), key) == Some((line, rest))
  {
    StripPrefixOf(key, line + ("\n" + rest));
    SplitLineOf(line, rest);
    assert line + ("\n" + rest) == line + "\n" + rest;
  }

  /** Index of the first line feed in `s`, or |s| when there is none. */
  function LineEnd(s: string): (k: nat)
    ensures k <= |s|
    ensures forall i :: 0 <= i < k ==> s[i] != '\n'
    ensures k < |s| ==> s[k] == '\n'
    decreases |s|
  {
    if s == [] || s[0] == '\n' then 0 else 1 + LineEnd(s[1..])
  }

  /** Splits `s` at its first line feed into the line before it and the text after it;
      None when `s` holds no line feed. */
  function SplitLine(s: string): (r: Option<(string, string)>)
    ensures r.None? <==> '\n' !in s
    ensures r.Some? ==> '\n' !in r.value.0 && s == r.value.0 + "\n" + r.value.1
  {
    var k := LineEnd(s);
    if k == |s| then None
    else
      assert s == s[..k] + "\n" + s[k + 1..];
      Some((s[..k], s[k + 1..]))
  }

  /** A line without a line feed, followed by one, splits back into exactly that line and
      whatever text came after it. */
  lemma SplitLineOf(line: string, rest: string)
    requires '\n' !in line
    ensures SplitLine(line + "\n" + rest) == Some((line, rest))
  {
    var s := line + "\n" + rest;
    assert s[|line|] == '\n';
    var k := LineEnd(s);
    assert forall i :: 0 <= i < |line| ==> s[i] == line[i];
    assert s[..k] == line;
    assert s[k + 1..] == rest;
  }
}
