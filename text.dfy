/** The JavaScript string operations the widget relies on, on Dafny strings
    (sequences of Unicode scalar values): `String.prototype.trim`, the
    `length` property (UTF-16 code units), `Array.prototype.filter(Boolean)`
    on strings and `Array.prototype.join`. */
module Text {

  /** The code points ECMAScript's `trim` removes: the WhiteSpace set
      (tab, vertical tab, form feed, space, no-break space, byte-order mark
      and the space separators of category Zs) and the LineTerminator set. */
  predicate IsJsWhitespace(c: char) {
    || c == '\U{0009}' || c == '\U{000B}' || c == '\U{000C}' || c == '\U{0020}'
    || c == '\U{00A0}' || c == '\U{FEFF}' || c == '\U{1680}'
    || ('\U{2000}' <= c <= '\U{200A}')
    || c == '\U{202F}' || c == '\U{205F}' || c == '\U{3000}'
    || c == '\U{000A}' || c == '\U{000D}' || c == '\U{2028}' || c == '\U{2029}'
  }

  predicate AllWhitespace(s: string) {
    forall k :: 0 <= k < |s| ==> IsJsWhitespace(s[k])
  }

  /** Drops leading whitespace: the result is the suffix of `s` that starts
      at its first non-whitespace character. */
  function TrimStart(s: string): (r: string)
    ensures |r| <= |s| && r == s[|s| - |r|..]
    ensures forall k :: 0 <= k < |s| - |r| ==> IsJsWhitespace(s[k])
    ensures r == [] || !IsJsWhitespace(r[0])
  {
    if s != [] && IsJsWhitespace(s[0]) then TrimStart(s[1..]) else s
  }

  /** Drops trailing whitespace: the result is the prefix of `s` that ends
      at its last non-whitespace character. */
  function TrimEnd(s: string): (r: string)
    ensures |r| <= |s| && r == s[..|r|]
    ensures forall k :: |r| <= k < |s| ==> IsJsWhitespace(s[k])
    ensures r == [] || !IsJsWhitespace(r[|r| - 1])
  {
    if s != [] && IsJsWhitespace(s[|s| - 1]) then TrimEnd(s[..|s| - 1]) else s
  }

  /** `s.trim()`: drops the leading and the trailing whitespace. */
  function Trim(s: string): (r: string)
    ensures |r| <= |s|
    ensures r == [] || (!IsJsWhitespace(r[0]) && !IsJsWhitespace(r[|r| - 1]))
  {
    TrimEnd(TrimStart(s))
  }

  /** A string is its prefix before `t`, then `r`, then the rest of `t`,
      when `t` is a suffix of it and `r` a prefix of `t`. */
  lemma SplitAroundSlice(s: string, t: string, r: string)
    requires |t| <= |s| && t == s[|s| - |t|..]
    requires |r| <= |t| && r == t[..|r|]
    ensures s == s[..|s| - |t|] + r + t[|r|..]
  {
    assert t == r + t[|r|..];
  }

  lemma LeadingRunIsWhitespace(s: string)
    ensures AllWhitespace(s[..|s| - |TrimStart(s)|])
  {
    var lead := s[..|s| - |TrimStart(s)|];
    forall k | 0 <= k < |lead| ensures IsJsWhitespace(lead[k]) {
      assert lead[k] == s[k];
    }
  }

  lemma TrailingRunIsWhitespace(t: string)
    ensures AllWhitespace(t[|TrimEnd(t)|..])
  {
    var trail := t[|TrimEnd(t)|..];
    forall k | 0 <= k < |trail| ensures IsJsWhitespace(trail[k]) {
      assert trail[k] == t[|TrimEnd(t)| + k];
    }
  }

  /** What `trim` removes is whitespace and nothing else: the input is the
      trimmed string with a whitespace run before it and one after it. */
  lemma TrimRemovesOnlyWhitespace(s: string)
    ensures exists lead, trail :: s == lead + Trim(s) + trail && AllWhitespace(lead) && AllWhitespace(trail)
  {
    var t := TrimStart(s);
    var r := TrimEnd(t);
    SplitAroundSlice(s, t, r);
    LeadingRunIsWhitespace(s);
    TrailingRunIsWhitespace(t);
    var lead, trail := s[..|s| - |t|], t[|r|..];
    assert s == lead + r + trail && AllWhitespace(lead) && AllWhitespace(trail);
  }

  /** Trimming a trimmed string changes nothing. */
  lemma TrimIdempotent(s: string)
    ensures Trim(Trim(s)) == Trim(s)
  {
    var r := Trim(s);
    assert TrimStart(r) == r;
    assert TrimEnd(r) == r;
  }

  /** The number of UTF-16 code units of `s`, which is what a JavaScript
      string's `length` counts: two for a character outside the Basic
      Multilingual Plane, one for any other. */
  function Utf16Length(s: string): (n: nat)
    ensures |s| <= n <= 2 * |s|
  {
    if s == [] then 0
    else (if s[0] as int >= 0x1_0000 then 2 else 1) + Utf16Length(s[1..])
  }

  /** A JavaScript `length` below 2 means at most one character, and that
      character (if any) lies in the Basic Multilingual Plane; conversely,
      two characters, or one supplementary-plane character, reach 2. */
  lemma Utf16LengthBelowTwo(s: string)
    ensures Utf16Length(s) < 2 <==> (s == [] || (|s| == 1 && (s[0] as int) < 0x1_0000))
  {
  }

  /** `parts.filter(Boolean)` on strings: keeps the non-empty parts (the
      empty string is the only falsy string), in their original order. */
  function NonEmpty(parts: seq<string>): (r: seq<string>)
    ensures |r| <= |parts|
    ensures forall p :: p in r <==> p in parts && p != ""
  {
    if parts == [] then []
    else if parts[0] == "" then NonEmpty(parts[1..])
    else [parts[0]] + NonEmpty(parts[1..])
  }

  /** Filtering distributes over concatenation, which is what keeps the
      surviving parts in their original order. */
  lemma {:induction false} NonEmptyAppend(a: seq<string>, b: seq<string>)
    ensures NonEmpty(a + b) == NonEmpty(a) + NonEmpty(b)
  {
    if a != [] {
      assert (a + b)[1..] == a[1..] + b;
      NonEmptyAppend(a[1..], b);
    } else {
      assert a + b == b;
    }
  }

  /** `parts.join(sep)`: the parts with `sep` between neighbours. */
  function Join(parts: seq<string>, sep: string): (r: string)
    ensures parts != [] ==> |parts[0]| <= |r| && r[..|parts[0]|] == parts[0]
    ensures sep != "" ==> (r == "" <==> parts == [] || parts == [""])
  {
    if parts == [] then ""
    else if |parts| == 1 then parts[0]
    else parts[0] + sep + Join(parts[1..], sep)
  }

  /** `parts.slice(0, n)`: the first `n` parts, or all of them when there
      are fewer. */
  function Take(parts: seq<string>, n: nat): (r: seq<string>)
    ensures |r| == if |parts| < n then |parts| else n
    ensures r == parts[..|r|]
  {
    if |parts| <= n then parts else parts[..n]
  }
}
