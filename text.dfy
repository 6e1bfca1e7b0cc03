/**
 * The few Python string builtins the message-routing code relies on:
 * `str.isspace`, `str.lower`, `str.isalnum`, `str.strip`, the `in` operator on
 * strings, `re.sub(r"[^0-9]", "", s)`, `str(int)` and `int(digits)`.
 */
module Text {
  import opened Wrappers

  /** Python's `str.isspace` for one character (also what `\s` matches in `re`). */
  predicate IsSpace(c: char) {
    var n := c as int;
    (9 <= n <= 13) || (28 <= n <= 32) || n == 0x85 || n == 0xA0 || n == 0x1680
    || (0x2000 <= n <= 0x200A) || n == 0x2028 || n == 0x2029 || n == 0x202F
    || n == 0x205F || n == 0x3000
  }

  predicate IsDigit(c: char) { '0' <= c <= '9' }

  predicate IsAsciiLetter(c: char) { ('a' <= c <= 'z') || ('A' <= c <= 'Z') }

  /** `str.isalnum` restricted to ASCII. */
  predicate IsAlnum(c: char) { IsAsciiLetter(c) || IsDigit(c) }

  predicate AllSpace(s: string) { forall i :: 0 <= i < |s| ==> IsSpace(s[i]) }

  predicate AllDigits(s: string) { forall i :: 0 <= i < |s| ==> IsDigit(s[i]) }

  function LowerChar(c: char): char {
    if 'A' <= c <= 'Z' then (c as int + 32) as char else c
  }

  /** `str.lower` restricted to ASCII letters. */
  function Lower(s: string): (r: string)
    ensures |r| == |s|
    ensures forall i :: 0 <= i < |s| ==> r[i] == LowerChar(s[i])
  {
    seq(|s|, i requires 0 <= i < |s| => LowerChar(s[i]))
  }

  lemma LowerIdempotent(s: string)
    ensures Lower(Lower(s)) == Lower(s)
  {
  }

  /** A lower-case letter is absent from `Lower(s)` when neither it nor its capital occurs in `s`. */
  lemma LowerAbsent(s: string, c: char)
    requires 'a' <= c <= 'z'
    requires c !in s && ((c as int - 32) as char) !in s
    ensures c !in Lower(s)
  {
  }

  predicate StartsWith(s: string, prefix: string) {
    |prefix| <= |s| && s[..|prefix|] == prefix
  }

  predicate EndsWith(s: string, suffix: string) {
    |suffix| <= |s| && s[|s| - |suffix|..] == suffix
  }

  /** Python's `needle in hay` on strings. */
  predicate IsSubstring(needle: string, hay: string)
    decreases |hay|
  {
    if |needle| > |hay| then false
    else if StartsWith(hay, needle) then true
    else IsSubstring(needle, hay[1..])
  }

  /** `needle` occurs in `hay` starting at offset `k`. */
  predicate OccursAt(needle: string, hay: string, k: int) {
    0 <= k <= |hay| - |needle| && hay[k..k + |needle|] == needle
  }

  /** `needle in hay` holds exactly when `needle` occurs at some offset of `hay`. */
  lemma {:induction false} SubstringAt(needle: string, hay: string)
    ensures IsSubstring(needle, hay) <==> exists k :: OccursAt(needle, hay, k)
    decreases |hay|
  {
    if |needle| <= |hay| && !StartsWith(hay, needle) {
      SubstringAt(needle, hay[1..]);
      if IsSubstring(needle, hay) {
        var k :| OccursAt(needle, hay[1..], k);
        assert hay[k + 1..k + 1 + |needle|] == hay[1..][k..k + |needle|];
        assert OccursAt(needle, hay, k + 1);
      }
      if exists k :: OccursAt(needle, hay, k) {
        var k :| OccursAt(needle, hay, k);
        assert k != 0;
        assert hay[1..][k - 1..k - 1 + |needle|] == hay[k..k + |needle|];
        assert OccursAt(needle, hay[1..], k - 1);
      }
    } else if |needle| <= |hay| {
      assert OccursAt(needle, hay, 0);
    }
  }

  lemma SubstringOfConcat(a: string, needle: string, b: string)
    ensures IsSubstring(needle, a + needle + b)
  {
    var hay := a + needle + b;
    assert OccursAt(needle, hay, |a|);
    SubstringAt(needle, hay);
  }

  /** A substring of `hay` stays a substring when `hay` is extended on either side. */
  lemma SubstringWithin(needle: string, hay: string, a: string, b: string)
    requires IsSubstring(needle, hay)
    ensures IsSubstring(needle, a + hay + b)
  {
    SubstringAt(needle, hay);
    var k :| OccursAt(needle, hay, k);
    var big := a + hay + b;
    assert big[|a| + k..|a| + k + |needle|] == hay[k..k + |needle|];
    assert OccursAt(needle, big, |a| + k);
    SubstringAt(needle, big);
  }

  lemma SubstringTransitive(a: string, b: string, c: string)
    requires IsSubstring(a, b) && IsSubstring(b, c)
    ensures IsSubstring(a, c)
  {
    SubstringAt(a, b);
    SubstringAt(b, c);
    var i :| OccursAt(a, b, i);
    var j :| OccursAt(b, c, j);
    forall t | 0 <= t < |a|
      ensures c[j + i + t] == a[t]
    {
      assert c[j..j + |b|][i + t] == b[i + t];
      assert b[i..i + |a|][t] == a[t];
    }
    assert c[j + i..j + i + |a|] == a;
    assert OccursAt(a, c, j + i);
    SubstringAt(a, c);
  }

  lemma SubstringAtEnd(a: string, needle: string)
    ensures IsSubstring(needle, a + needle)
  {
    assert (a + needle)[|a|..|a| + |needle|] == needle;
    assert OccursAt(needle, a + needle, |a|);
    SubstringAt(needle, a + needle);
  }

  lemma SubstringExtendRight(needle: string, hay: string, b: string)
    requires IsSubstring(needle, hay)
    ensures IsSubstring(needle, hay + b)
  {
    SubstringAt(needle, hay);
    var k :| OccursAt(needle, hay, k);
    assert (hay + b)[k..k + |needle|] == hay[k..k + |needle|];
    assert OccursAt(needle, hay + b, k);
    SubstringAt(needle, hay + b);
  }

  lemma ConcatAssoc(a: string, b: string, c: string)
    ensures a + b + c == a + (b + c)
  {
  }

  /** `a + b + c` starts with `a` and ends with `c`. */
  lemma ConcatFrame(a: string, b: string, c: string)
    ensures StartsWith(a + b + c, a) && EndsWith(a + b + c, c)
  {
    assert (a + b + c)[..|a|] == a;
    assert (a + b + c)[|a + b + c| - |c|..] == c;
  }

  /** Every character of a substring occurs in the enclosing string. */
  lemma {:induction false} SubstringChars(needle: string, hay: string)
    requires IsSubstring(needle, hay)
    ensures forall c :: c in needle ==> c in hay
    decreases |hay|
  {
    if !StartsWith(hay, needle) {
      SubstringChars(needle, hay[1..]);
    } else {
      assert forall i :: 0 <= i < |needle| ==> needle[i] == hay[i];
    }
  }

  /** A character of `needle` that `hay` lacks rules the substring relation out. */
  lemma NotSubstringByChar(needle: string, hay: string, c: char)
    requires c in needle && c !in hay
    ensures !IsSubstring(needle, hay)
  {
    if IsSubstring(needle, hay) {
      SubstringChars(needle, hay);
    }
  }

  // ---- str.strip -------------------------------------------------------

  /** The end of the run of whitespace that starts at offset `i`. */
  function SpacesFrom(s: string, i: nat): (r: nat)
    requires i <= |s|
    ensures i <= r <= |s|
    ensures forall k :: i <= k < r ==> IsSpace(s[k])
    ensures r < |s| ==> !IsSpace(s[r])
    decreases |s| - i
  {
    if i == |s| || !IsSpace(s[i]) then i else SpacesFrom(s, i + 1)
  }

  /** The start of the run of whitespace that ends just before offset `j`. */
  function SpacesBefore(s: string, j: nat): (r: nat)
    requires j <= |s|
    ensures r <= j
    ensures forall k :: r <= k < j ==> IsSpace(s[k])
    ensures 0 < r ==> !IsSpace(s[r - 1])
  {
    if j == 0 || !IsSpace(s[j - 1]) then j else SpacesBefore(s, j - 1)
  }

  /** Number of leading whitespace characters. */
  function LeadingSpaces(s: string): (k: nat)
    ensures k <= |s|
    ensures AllSpace(s[..k])
    ensures k < |s| ==> !IsSpace(s[k])
  {
    var k := SpacesFrom(s, 0);
    assert forall i :: 0 <= i < k ==> s[..k][i] == s[i];
    k
  }

  /** `s` is `r` with only whitespace before offset `i` and after `r`. */
  predicate PaddedAt(s: string, r: string, i: int) {
    OccursAt(r, s, i) && AllSpace(s[..i]) && AllSpace(s[i + |r|..])
  }

  /** Python's `str.strip()` with no argument. */
  function Strip(s: string): (r: string)
    ensures r == [] <==> AllSpace(s)
    ensures r != [] ==> !IsSpace(r[0]) && !IsSpace(r[|r| - 1])
    ensures PaddedAt(s, r, StripStart(s))
  {
    StripBounds(s);
    s[StripStart(s)..StripEnd(s)]
  }

  function StripStart(s: string): nat {
    if SpacesFrom(s, 0) == |s| then 0 else SpacesFrom(s, 0)
  }

  function StripEnd(s: string): nat {
    if SpacesFrom(s, 0) == |s| then 0 else SpacesBefore(s, |s|)
  }

  lemma StripBounds(s: string)
    ensures StripStart(s) <= StripEnd(s) <= |s|
    ensures StripStart(s) == StripEnd(s) <==> AllSpace(s)
    ensures StripStart(s) < StripEnd(s) ==> !IsSpace(s[StripStart(s)]) && !IsSpace(s[StripEnd(s) - 1])
    ensures PaddedAt(s, s[StripStart(s)..StripEnd(s)], StripStart(s))
  {
    var a, e := StripStart(s), StripEnd(s);
    if SpacesFrom(s, 0) == |s| {
      assert s[..0] == [] && s[0..] == s;
    } else {
      assert !IsSpace(s[a]);
      assert a < e;
      assert !AllSpace(s);
      assert s[..a] == s[..SpacesFrom(s, 0)];
      assert forall k :: 0 <= k < |s[e..]| ==> s[e..][k] == s[e + k];
    }
  }

  /** Number of leading ASCII digits. */
  function LeadingDigits(s: string): (k: nat)
    ensures k <= |s|
    ensures AllDigits(s[..k])
    ensures k < |s| ==> !IsDigit(s[k])
  {
    if s == [] || !IsDigit(s[0]) then 0
    else
      var k := 1 + LeadingDigits(s[1..]);
      assert s[..k] == [s[0]] + s[1..][..k - 1];
      k
  }

  lemma {:induction false} LeadingDigitsOfPadded(ds: string, rest: string)
    requires AllDigits(ds)
    requires rest != [] ==> !IsDigit(rest[0])
    ensures LeadingDigits(ds + rest) == |ds|
    decreases |ds|
  {
    if ds != [] {
      assert (ds + rest)[1..] == ds[1..] + rest;
      LeadingDigitsOfPadded(ds[1..], rest);
    } else {
      assert ds + rest == rest;
    }
  }

  /** Leading whitespace `pre` before a non-space is exactly what `SpacesFrom` skips. */
  lemma {:induction false} SpacesFromPadded(pre: string, rest: string, i: nat)
    requires i <= |pre| && AllSpace(pre)
    requires rest != [] ==> !IsSpace(rest[0])
    ensures SpacesFrom(pre + rest, i) == |pre|
    decreases |pre| - i
  {
    var s := pre + rest;
    if i < |pre| {
      assert s[i] == pre[i];
      SpacesFromPadded(pre, rest, i + 1);
    } else if rest != [] {
      assert s[i] == rest[0];
    }
  }

  lemma {:induction false} SpacesBeforePadded(rest: string, post: string, j: nat)
    requires |rest| <= j <= |rest| + |post| && AllSpace(post)
    requires rest != [] ==> !IsSpace(rest[|rest| - 1])
    ensures SpacesBefore(rest + post, j) == |rest|
    decreases j
  {
    var s := rest + post;
    if |rest| < j {
      assert s[j - 1] == post[j - 1 - |rest|];
      SpacesBeforePadded(rest, post, j - 1);
    } else if rest != [] {
      assert s[j - 1] == rest[|rest| - 1];
    }
  }

  lemma LeadingSpacesOfPadded(pre: string, rest: string)
    requires AllSpace(pre)
    requires rest != [] ==> !IsSpace(rest[0])
    ensures LeadingSpaces(pre + rest) == |pre|
  {
    SpacesFromPadded(pre, rest, 0);
  }

  /** `strip` removes exactly the surrounding whitespace and keeps the core. */
  lemma StripPadded(pre: string, core: string, post: string)
    requires AllSpace(pre) && AllSpace(post)
    requires core != [] ==> !IsSpace(core[0]) && !IsSpace(core[|core| - 1])
    ensures Strip(pre + core + post) == core
  {
    var s := pre + core + post;
    if core == [] {
      assert s == pre + post;
      AllSpaceConcat(pre, post);
    } else {
      assert s == pre + (core + post);
      assert (core + post)[0] == core[0];
      SpacesFromPadded(pre, core + post, 0);
      assert s == (pre + core) + post;
      assert (pre + core)[|pre + core| - 1] == core[|core| - 1];
      SpacesBeforePadded(pre + core, post, |s|);
      assert s[|pre|..|pre| + |core|] == core;
    }
  }

  lemma AllSpaceConcat(x: string, y: string)
    requires AllSpace(x) && AllSpace(y)
    ensures AllSpace(x + y)
  {
    forall i | 0 <= i < |x + y|
      ensures IsSpace((x + y)[i])
    {
      if i < |x| {
        assert (x + y)[i] == x[i];
      } else {
        assert (x + y)[i] == y[i - |x|];
      }
    }
  }

  // ---- re.sub(r"[^0-9]", "", s) ----------------------------------------

  /** The ASCII digits of `s`, in order. */
  function DigitsOf(s: string): (r: string)
    ensures AllDigits(r)
    ensures |r| <= |s|
  {
    if s == [] then []
    else (if IsDigit(s[0]) then [s[0]] else []) + DigitsOf(s[1..])
  }

  lemma {:induction false} DigitsOfConcat(a: string, b: string)
    ensures DigitsOf(a + b) == DigitsOf(a) + DigitsOf(b)
    decreases |a|
  {
    if a == [] {
      assert a + b == b;
    } else {
      assert (a + b)[1..] == a[1..] + b;
      DigitsOfConcat(a[1..], b);
    }
  }

  lemma {:induction false} DigitsOfSpaces(s: string)
    requires AllSpace(s)
    ensures DigitsOf(s) == []
    decreases |s|
  {
    if s != [] {
      DigitsOfSpaces(s[1..]);
    }
  }

  lemma {:induction false} DigitsOfDigits(s: string)
    requires AllDigits(s)
    ensures DigitsOf(s) == s
    decreases |s|
  {
    if s != [] {
      DigitsOfDigits(s[1..]);
    }
  }

  /** Removing surrounding whitespace first does not change the digits kept. */
  lemma DigitsOfStrip(s: string)
    ensures DigitsOf(Strip(s)) == DigitsOf(s)
  {
    var r := Strip(s);
    var i := StripStart(s);
    var pre, post := s[..i], s[i + |r|..];
    assert s == pre + r + post;
    DigitsOfPadded(pre, r, post);
  }

  lemma DigitsOfPadded(pre: string, r: string, post: string)
    requires AllSpace(pre) && AllSpace(post)
    ensures DigitsOf(pre + r + post) == DigitsOf(r)
  {
    DigitsOfConcat(pre + r, post);
    DigitsOfConcat(pre, r);
    DigitsOfSpaces(pre);
    DigitsOfSpaces(post);
  }

  // ---- str(int) and int(digits) -----------------------------------------

  function DigitChar(d: nat): char
    requires d < 10
  {
    ('0' as int + d) as char
  }

  function DigitValue(c: char): nat
    requires IsDigit(c)
  {
    c as int - '0' as int
  }

  /** Python's `int(ds)` for a string of ASCII digits. */
  function DecimalValue(ds: string): nat
    requires AllDigits(ds)
  {
    if ds == [] then 0
    else 10 * DecimalValue(ds[..|ds| - 1]) + DigitValue(ds[|ds| - 1])
  }

  /** Python's `str(n)` for a non-negative integer. */
  function NatToString(n: nat): (r: string)
    ensures r != [] && AllDigits(r)
  {
    if n < 10 then [DigitChar(n)] else NatToString(n / 10) + [DigitChar(n % 10)]
  }

  /** Python's `str(i)` for any integer. */
  function IntToString(i: int): string {
    if i < 0 then "-" + NatToString(-i) else NatToString(i)
  }

  /** `int(str(n)) == n`. */
  lemma {:induction false} NatToStringRoundTrip(n: nat)
    ensures DecimalValue(NatToString(n)) == n
  {
    if n >= 10 {
      NatToStringRoundTrip(n / 10);
      var s := NatToString(n);
      assert s[..|s| - 1] == NatToString(n / 10);
    }
  }

  /** How an f-string renders a value that may be `None`. */
  function Show(o: Option<string>): string {
    match o
    case Some(s) => s
    case None => "None"
  }

  // ---- lines ------------------------------------------------------------

  /** Index of the first `c` in `s`, or `|s|` when there is none. */
  function IndexOf(s: string, c: char): (k: nat)
    ensures k <= |s|
    ensures k < |s| ==> s[k] == c
    ensures c !in s[..k]
  {
    if s == [] || s[0] == c then 0
    else
      var k := 1 + IndexOf(s[1..], c);
      assert s[..k] == [s[0]] + s[1..][..k - 1];
      k
  }

  /** The lines of `s`: pieces separated by `'\n'`, the last one kept only when not empty. */
  function SplitLines(s: string): seq<string>
    decreases |s|
  {
    if s == [] then []
    else
      var k := IndexOf(s, '\n');
      if k == |s| then [s] else [s[..k]] + SplitLines(s[k + 1..])
  }

  lemma {:induction false} IndexOfFirst(s: string, c: char, j: nat)
    requires j < |s| && s[j] == c && c !in s[..j]
    ensures IndexOf(s, c) == j
  {
    if j > 0 {
      assert s[0] in s[..j];
      assert s[1..][..j - 1] == s[1..j];
      assert forall x :: x in s[1..j] ==> x in s[..j];
      IndexOfFirst(s[1..], c, j - 1);
    }
  }

  lemma SplitLinesCons(line: string, rest: string)
    requires '\n' !in line
    ensures SplitLines(line + "\n" + rest) == [line] + SplitLines(rest)
  {
    var s := line + "\n" + rest;
    assert s[..|line|] == line;
    IndexOfFirst(s, '\n', |line|);
    assert s[|line| + 1..] == rest;
  }
}
