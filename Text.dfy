/**
 * The few pieces of Python's `str` behaviour the platform relies on:
 * `strip()`, `lower()`/`upper()`, `in`, `startswith`, `split()`, `join`
 * and the ordering of names.  Whitespace is exactly the set of
 * characters for which Python's `str.isspace()` holds.  Case mapping
 * covers the ASCII letters only.
 */
module Text {

  predicate IsSpace(c: char) {
    c == ' ' || ('\t' <= c <= '\r') || ('\U{1c}' <= c <= '\U{1f}') ||
    c == '\U{85}' || c == '\U{a0}' || c == '\U{1680}' ||
    ('\U{2000}' <= c <= '\U{200a}') || c == '\U{2028}' || c == '\U{2029}' ||
    c == '\U{202f}' || c == '\U{205f}' || c == '\U{3000}'
  }

  predicate AllSpace(s: string) {
    forall i :: 0 <= i < |s| ==> IsSpace(s[i])
  }

  /** No leading and no trailing whitespace. */
  predicate IsStripped(s: string) {
    s == [] || (!IsSpace(s[0]) && !IsSpace(s[|s| - 1]))
  }

  function TrimStart(s: string): (r: string)
    ensures |r| <= |s|
    ensures r != [] ==> !IsSpace(r[0])
  {
    if s != [] && IsSpace(s[0]) then TrimStart(s[1..]) else s
  }

  /** `lstrip()` removes a prefix of whitespace and nothing else. */
  lemma {:induction false} TrimStartSpace(s: string)
    ensures TrimStart(s) == s[|s| - |TrimStart(s)|..]
    ensures AllSpace(s[..|s| - |TrimStart(s)|])
  {
    if s != [] && IsSpace(s[0]) {
      TrimStartSpace(s[1..]);
      assert s[1..][|s| - 1 - |TrimStart(s)|..] == s[|s| - |TrimStart(s)|..];
      var n := |s| - |TrimStart(s)|;
      forall i | 0 <= i < n ensures IsSpace(s[..n][i]) {
        if i > 0 {
          assert s[..n][i] == s[1..][..n - 1][i - 1];
        }
      }
    }
  }

  function TrimEnd(s: string): (r: string)
    ensures |r| <= |s|
    ensures r != [] ==> r[0] == s[0] && !IsSpace(r[|r| - 1])
  {
    if s != [] && IsSpace(s[|s| - 1]) then TrimEnd(s[..|s| - 1]) else s
  }

  /** `rstrip()` removes a suffix of whitespace and nothing else. */
  lemma {:induction false} TrimEndSpace(s: string)
    ensures TrimEnd(s) == s[..|TrimEnd(s)|]
    ensures AllSpace(s[|TrimEnd(s)|..])
  {
    if s != [] && IsSpace(s[|s| - 1]) {
      var p := s[..|s| - 1];
      TrimEndSpace(p);
      assert p[..|TrimEnd(s)|] == s[..|TrimEnd(s)|];
      var m := |TrimEnd(s)|;
      forall i | 0 <= i < |s| - m ensures IsSpace(s[m..][i]) {
        if m + i < |s| - 1 {
          assert s[m..][i] == p[m..][i];
        }
      }
    }
  }

  /** Python's `s.strip()`: the whitespace at both ends is removed and nothing else. */
  function Strip(s: string): (r: string)
    ensures IsStripped(r) && |r| <= |s|
  {
    TrimEnd(TrimStart(s))
  }

  /** What stripping removes: whitespace before and after a contiguous middle part, which is what is left. */
  lemma StripSlice(s: string)
    ensures var i := |s| - |TrimStart(s)|; var r := Strip(s);
      i + |r| <= |s| && r == s[i..i + |r|] && AllSpace(s[..i]) && AllSpace(s[i + |r|..])
  {
    TrimStartSpace(s);
    TrimEndSpace(TrimStart(s));
    StripShape(s, TrimStart(s), Strip(s));
  }

  lemma StripShape(s: string, a: string, r: string)
    requires |a| <= |s| && a == s[|s| - |a|..]
    requires |r| <= |a| && r == a[..|r|]
    requires AllSpace(a[|r|..])
    ensures var i := |s| - |a|; r == s[i..i + |r|] && AllSpace(s[i + |r|..])
  {
    var i := |s| - |a|;
    assert a[|r|..] == s[i + |r|..];
  }

  /** `strip()` leaves nothing exactly when the text is all whitespace. */
  lemma StripEmptyIff(s: string)
    ensures Strip(s) == [] <==> AllSpace(s)
  {
    var r := Strip(s);
    var i := |s| - |TrimStart(s)|;
    StripSlice(s);
    if r == [] {
      forall k | 0 <= k < |s| ensures IsSpace(s[k]) {
        if k < i { assert s[..i][k] == s[k]; } else { assert s[i..][k - i] == s[k]; }
      }
    } else {
      assert r[0] == s[i];
      assert !IsSpace(s[i]);
    }
  }

  /** Stripping twice is stripping once. */
  lemma StripIdempotent(s: string)
    ensures Strip(Strip(s)) == Strip(s)
  {
    var r := Strip(s);
    assert TrimStart(r) == r;
    assert TrimEnd(r) == r;
  }

  function LowerChar(c: char): char {
    if 'A' <= c <= 'Z' then (c as int + 32) as char else c
  }

  function UpperChar(c: char): char {
    if 'a' <= c <= 'z' then (c as int - 32) as char else c
  }

  function Lower(s: string): (r: string)
    ensures |r| == |s|
  {
    seq(|s|, i requires 0 <= i < |s| => LowerChar(s[i]))
  }

  function Upper(s: string): (r: string)
    ensures |r| == |s|
  {
    seq(|s|, i requires 0 <= i < |s| => UpperChar(s[i]))
  }

  predicate StartsWith(s: string, prefix: string) {
    |prefix| <= |s| && s[..|prefix|] == prefix
  }

  /** Python's `needle in hay`. */
  predicate Contains(hay: string, needle: string) {
    exists i :: 0 <= i <= |hay| - |needle| && OccursAt(hay, needle, i)
  }

  predicate OccursAt(hay: string, needle: string, i: int) {
    0 <= i <= |hay| - |needle| && hay[i..i + |needle|] == needle
  }

  /** Case-insensitive equality, containment and prefix (SQL `iexact`, `icontains`, `istartswith`). */
  predicate EqualsCI(a: string, b: string) { Lower(a) == Lower(b) }
  predicate ContainsCI(hay: string, needle: string) { Contains(Lower(hay), Lower(needle)) }
  predicate StartsWithCI(s: string, prefix: string) { StartsWith(Lower(s), Lower(prefix)) }

  lemma PrefixIsContained(s: string, p: string)
    requires StartsWith(s, p)
    ensures Contains(s, p)
  {
    assert OccursAt(s, p, 0);
  }

  lemma EqualIsPrefix(s: string, p: string)
    requires s == p
    ensures StartsWith(s, p)
  {
  }

  /** Code-point (lexicographic) order on strings: `a <= b`. */
  predicate StrLe(a: string, b: string)
    decreases |a|
  {
    if a == [] then true
    else if b == [] then false
    else if a[0] != b[0] then a[0] < b[0]
    else StrLe(a[1..], b[1..])
  }

  lemma {:induction false} StrLeTotal(a: string, b: string)
    ensures StrLe(a, b) || StrLe(b, a)
    decreases |a|
  {
    if a != [] && b != [] && a[0] == b[0] { StrLeTotal(a[1..], b[1..]); }
  }

  lemma {:induction false} StrLeTransitive(a: string, b: string, c: string)
    requires StrLe(a, b) && StrLe(b, c)
    ensures StrLe(a, c)
    decreases |a|
  {
    if a != [] && b != [] && c != [] && a[0] == b[0] && b[0] == c[0] {
      StrLeTransitive(a[1..], b[1..], c[1..]);
    }
  }

  lemma {:induction false} StrLeAntisymmetric(a: string, b: string)
    requires StrLe(a, b) && StrLe(b, a)
    ensures a == b
    decreases |a|
  {
    if a != [] && b != [] && a[0] == b[0] {
      StrLeAntisymmetric(a[1..], b[1..]);
      assert a == [a[0]] + a[1..] && b == [b[0]] + b[1..];
    }
  }

  /** Python's `sep.join(parts)`. */
  function Join(parts: seq<string>, sep: string): (r: string)
    ensures parts == [] ==> r == []
    ensures |parts| == 1 ==> r == parts[0]
  {
    if parts == [] then []
    else if |parts| == 1 then parts[0]
    else parts[0] + sep + Join(parts[1..], sep)
  }

  /** Every part occurs in the joined text. */
  lemma {:induction false} JoinContainsParts(parts: seq<string>, sep: string, k: nat)
    requires k < |parts|
    ensures Contains(Join(parts, sep), parts[k])
  {
    var r := Join(parts, sep);
    if |parts| == 1 {
      assert OccursAt(r, parts[k], 0);
    } else if k == 0 {
      assert r[0..|parts[0]|] == parts[0];
      assert OccursAt(r, parts[k], 0);
    } else {
      var rest := Join(parts[1..], sep);
      JoinContainsParts(parts[1..], sep, k - 1);
      var i :| 0 <= i <= |rest| - |parts[k]| && OccursAt(rest, parts[k], i);
      var off := |parts[0]| + |sep|;
      assert r == parts[0] + sep + rest;
      assert r[off + i..off + i + |parts[k]|] == rest[i..i + |parts[k]|];
      assert OccursAt(r, parts[k], off + i);
    }
  }

  /** Text on either side of the first `c`: when neither left part holds `c`, the split point is the same. */
  lemma SplitAtFirst(x: string, y: string, x': string, y': string, c: char)
    requires c !in x && c !in x'
    requires x + [c] + y == x' + [c] + y'
    ensures x == x' && y == y'
  {
    if |x| < |x'| {
      SeparatorInLonger(x, y, x', y', c);
      assert false;
    } else if |x'| < |x| {
      SeparatorInLonger(x', y', x, y, c);
      assert false;
    }
    var s := x + [c] + y;
    assert x == s[..|x|] && x' == s[..|x|];
    assert y == s[|x| + 1..] && y' == s[|x| + 1..];
  }

  /** When two texts split at a `c` agree, the longer left part holds that `c`. */
  lemma SeparatorInLonger(x: string, y: string, x': string, y': string, c: char)
    requires |x| < |x'|
    requires x + [c] + y == x' + [c] + y'
    ensures x'[|x|] == c && c in x'
  {
    assert (x + [c] + y)[|x|] == c;
  }

  /** Joining the same number of parts with a one-character separator none of them holds loses nothing. */
  lemma {:induction false} JoinInjective(a: seq<string>, b: seq<string>, c: char)
    requires |a| == |b|
    requires forall k :: 0 <= k < |a| ==> c !in a[k]
    requires forall k :: 0 <= k < |b| ==> c !in b[k]
    requires Join(a, [c]) == Join(b, [c])
    ensures a == b
    decreases |a|
  {
    if |a| >= 2 {
      SplitAtFirst(a[0], Join(a[1..], [c]), b[0], Join(b[1..], [c]), c);
      JoinInjective(a[1..], b[1..], c);
      assert a == [a[0]] + a[1..] && b == [b[0]] + b[1..];
    }
  }

  /** A word of `split()`: non-empty, without whitespace. */
  predicate IsWord(w: string) {
    w != [] && forall i :: 0 <= i < |w| ==> !IsSpace(w[i])
  }

  /** Python's `s.split()` with no argument: the maximal runs of non-whitespace. */
  function Words(s: string): (ws: seq<string>)
    ensures forall k :: 0 <= k < |ws| ==> IsWord(ws[k])
    decreases |s|
  {
    var t := TrimStart(s);
    if t == [] then []
    else
      var w := FirstWord(t);
      var rest := t[|w|..];
      assert |rest| < |s|;
      WordsCons(w, Words(rest))
  }

  /** A word in front of a list of words. */
  function WordsCons(w: string, ws: seq<string>): (r: seq<string>)
    requires IsWord(w) && forall k :: 0 <= k < |ws| ==> IsWord(ws[k])
    ensures forall k :: 0 <= k < |r| ==> IsWord(r[k])
    ensures r == [w] + ws
  {
    [w] + ws
  }

  function FirstWord(s: string): (w: string)
    requires s != [] && !IsSpace(s[0])
    ensures IsWord(w) && |w| <= |s| && w == s[..|w|]
    ensures |w| < |s| ==> IsSpace(s[|w|])
  {
    if |s| == 1 || IsSpace(s[1]) then s[..1] else [s[0]] + FirstWord(s[1..])
  }

  /** Decimal text of a natural number, as Python's `str(n)`. */
  function NatToString(n: nat): (r: string)
    ensures r != []
    ensures forall c :: c in r ==> '0' <= c <= '9'
  {
    if n < 10 then [DigitChar(n)] else NatToString(n / 10) + [DigitChar(n % 10)]
  }

  /** Different numbers have different decimal texts. */
  lemma {:induction false} NatToStringInjective(m: nat, n: nat)
    requires NatToString(m) == NatToString(n)
    ensures m == n
    decreases m
  {
    var r := NatToString(m);
    if m >= 10 && n >= 10 {
      assert r[..|r| - 1] == NatToString(m / 10) && r[..|r| - 1] == NatToString(n / 10);
      NatToStringInjective(m / 10, n / 10);
    }
  }

  function DigitChar(d: nat): (c: char)
    requires d < 10
    ensures '0' <= c <= '9'
  {
    ('0' as int + d) as char
  }

  /** The position of the last `c` in `s`, as `rsplit(c, 1)` finds it. */
  function LastIndexOf(s: string, c: char): (r: int)
    ensures -1 <= r < |s|
    ensures r >= 0 ==> s[r] == c
    ensures forall k :: r < k < |s| ==> s[k] != c
  {
    if s == [] then -1
    else if s[|s| - 1] == c then |s| - 1
    else LastIndexOf(s[..|s| - 1], c)
  }
}
