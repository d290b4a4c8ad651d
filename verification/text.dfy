/** String helpers with the semantics of the Python `str` methods the dashboard
    uses, restricted to ASCII text. */
module Text {

  predicate IsAscii(s: string) {
    forall i :: 0 <= i < |s| ==> s[i] as int < 128
  }

  /** `str.isspace()` on an ASCII character: space, tab to carriage return,
      and the four separators 0x1C to 0x1F. */
  predicate IsSpace(c: char) {
    c == ' ' || 9 <= c as int <= 13 || 28 <= c as int <= 31
  }

  predicate IsDigit(c: char) {
    '0' <= c <= '9'
  }

  /** `str.isdigit()`: at least one character, and every character a digit. */
  predicate IsDigitString(s: string) {
    |s| > 0 && forall i :: 0 <= i < |s| ==> IsDigit(s[i])
  }

  predicate AllDigits(s: string) {
    forall i :: 0 <= i < |s| ==> IsDigit(s[i])
  }

  predicate StartsWith(s: string, prefix: string) {
    |prefix| <= |s| && s[..|prefix|] == prefix
  }

  predicate EndsWith(s: string, suffix: string) {
    |suffix| <= |s| && s[|s| - |suffix|..] == suffix
  }

  /** `sub in s`. */
  predicate Contains(s: string, sub: string)
    decreases |s|
  {
    StartsWith(s, sub) || (|s| > 0 && Contains(s[1..], sub))
  }

  /** An occurrence of `sub` starting at offset `k` is an occurrence. */
  lemma {:induction false} ContainsAt(s: string, sub: string, k: nat)
    requires k <= |s| && StartsWith(s[k..], sub)
    ensures Contains(s, sub)
    decreases k
  {
    if k > 0 {
      assert s[1..][k - 1..] == s[k..];
      ContainsAt(s[1..], sub, k - 1);
    } else {
      assert s[0..] == s;
    }
  }

  /** Whatever contains `a + b` contains `b`. */
  lemma {:induction false} ContainsTail(s: string, a: string, b: string)
    requires Contains(s, a + b)
    ensures Contains(s, b)
    decreases |s|
  {
    if StartsWith(s, a + b) {
      assert s[|a|..][..|b|] == (a + b)[|a|..];
      assert (a + b)[|a|..] == b;
      ContainsAt(s, b, |a|);
    } else {
      ContainsTail(s[1..], a, b);
    }
  }

  /** `str.lstrip()` with no argument. */
  function LStrip(s: string): (r: string)
    ensures |r| <= |s| && r == s[|s| - |r|..]
    ensures forall i :: 0 <= i < |s| - |r| ==> IsSpace(s[i])
    ensures |r| == 0 || !IsSpace(r[0])
    decreases |s|
  {
    if |s| > 0 && IsSpace(s[0]) then LStrip(s[1..]) else s
  }

  /** `str.rstrip()` with no argument. */
  function RStrip(s: string): (r: string)
    ensures |r| <= |s| && r == s[..|r|]
    ensures forall i :: |r| <= i < |s| ==> IsSpace(s[i])
    ensures |r| == 0 || !IsSpace(r[|r| - 1])
    decreases |s|
  {
    if |s| > 0 && IsSpace(s[|s| - 1]) then RStrip(s[..|s| - 1]) else s
  }

  /** The length of the leading whitespace of `s`. */
  function Lead(s: string): (n: nat)
    ensures n <= |s| && forall i :: 0 <= i < n ==> IsSpace(s[i])
    ensures n == |s| || !IsSpace(s[n])
  {
    |s| - |LStrip(s)|
  }

  /** `str.strip()` with no argument: neither end of the result is
      whitespace. */
  function Strip(s: string): (r: string)
    ensures |r| == 0 || (!IsSpace(r[0]) && !IsSpace(r[|r| - 1]))
  {
    var l := LStrip(s);
    assert |RStrip(l)| > 0 ==> RStrip(l)[0] == l[0];
    RStrip(l)
  }

  /** The stripped string is the stretch of `s` after its leading
      whitespace, and only whitespace follows it. */
  lemma StripStretch(s: string)
    ensures Lead(s) + |Strip(s)| <= |s|
    ensures Strip(s) == s[Lead(s)..Lead(s) + |Strip(s)|]
    ensures forall i :: Lead(s) + |Strip(s)| <= i < |s| ==> IsSpace(s[i])
  {
    StripCuts(s, LStrip(s), RStrip(LStrip(s)), Lead(s));
  }

  /** Stripping leaves nothing exactly when `s` is all whitespace. */
  lemma StripEmpty(s: string)
    ensures |Strip(s)| == 0 <==> forall i :: 0 <= i < |s| ==> IsSpace(s[i])
  {
    StripCuts(s, LStrip(s), RStrip(LStrip(s)), Lead(s));
  }

  /** Cutting whitespace off the front of `s` (giving `l`) and then off the
      back of `l` (giving `r`) leaves the stretch of `s` after the leading
      whitespace, followed only by whitespace. */
  lemma StripCuts(s: string, l: string, r: string, k: nat)
    requires |l| <= |s| && k == |s| - |l| && l == s[k..]
    requires forall i :: 0 <= i < k ==> IsSpace(s[i])
    requires |l| == 0 || !IsSpace(l[0])
    requires |r| <= |l| && r == l[..|r|]
    requires forall i :: |r| <= i < |l| ==> IsSpace(l[i])
    requires |r| == 0 || !IsSpace(r[|r| - 1])
    ensures k + |r| <= |s| && r == s[k..k + |r|]
    ensures forall i :: k + |r| <= i < |s| ==> IsSpace(s[i])
    ensures |r| == 0 || !IsSpace(r[0])
    ensures |r| == 0 <==> forall i :: 0 <= i < |s| ==> IsSpace(s[i])
  {
    forall i | k <= i < |s|
      ensures s[i] == l[i - k]
    {
    }
    if |r| > 0 {
      assert r[0] == l[0] == s[k];
    }
  }

  /** A string without whitespace is its own stripped form. */
  lemma StripNoSpace(s: string)
    requires forall i :: 0 <= i < |s| ==> !IsSpace(s[i])
    ensures Strip(s) == s
  {
    var l := LStrip(s);
    assert l == s;
  }

  /** The upper-case form of an ASCII character: a lower-case letter moves
      down 32 code points to its capital, anything else is unchanged. */
  function UpperChar(c: char): (u: char)
    ensures 'a' <= c <= 'z' ==> 'A' <= u <= 'Z' && u as int == c as int - 32
    ensures !('a' <= c <= 'z') ==> u == c
    ensures !('a' <= u <= 'z')
  {
    if 'a' <= c <= 'z' then (c as int - 32) as char else c
  }

  /** `str.upper()` on ASCII text: no lower-case letter is left, ASCII stays
      ASCII, and upper-casing twice changes nothing more. */
  function ToUpper(s: string): (r: string)
    ensures |r| == |s|
    ensures forall i :: 0 <= i < |s| ==> r[i] == UpperChar(s[i])
    ensures forall i :: 0 <= i < |r| ==> !('a' <= r[i] <= 'z')
    ensures IsAscii(s) ==> IsAscii(r)
    ensures forall i :: 0 <= i < |r| ==> UpperChar(r[i]) == r[i]
  {
    seq(|s|, i requires 0 <= i < |s| => UpperChar(s[i]))
  }

  /** `s.replace(pat, '')`: removes every non-overlapping occurrence of `pat`,
      scanning left to right. It removes `s.count(pat)` copies of `pat`, and
      leaves a string that does not contain `pat` as it is. */
  function RemoveAll(s: string, pat: string): (r: string)
    requires |pat| > 0
    ensures |r| <= |s|
    ensures |r| + Count(s, pat) * |pat| == |s|
    ensures (forall i :: 0 <= i < |s| ==> s[i] != pat[0]) ==> r == s
    ensures !Contains(s, pat) ==> r == s
    decreases |s|
  {
    if |s| == 0 then s
    else if StartsWith(s, pat) then
      var r := RemoveAll(s[|pat|..], pat);
      assert (Count(s[|pat|..], pat) + 1) * |pat| == Count(s[|pat|..], pat) * |pat| + |pat|;
      r
    else
      var r := RemoveAll(s[1..], pat);
      assert s == [s[0]] + s[1..];
      [s[0]] + r
  }

  /** `s.count(pat)`: the non-overlapping occurrences of `pat`, counted
      left to right. */
  function Count(s: string, pat: string): nat
    requires |pat| > 0
    decreases |s|
  {
    if |s| == 0 then 0
    else if StartsWith(s, pat) then 1 + Count(s[|pat|..], pat)
    else Count(s[1..], pat)
  }

  /** `str.lstrip('0')`. */
  function LStripZeros(s: string): (r: string)
    ensures |r| <= |s| && r == s[|s| - |r|..]
    ensures forall i :: 0 <= i < |s| - |r| ==> s[i] == '0'
    ensures |r| == 0 || r[0] != '0'
    decreases |s|
  {
    if |s| > 0 && s[0] == '0' then LStripZeros(s[1..]) else s
  }

  function Zeros(n: nat): (r: string)
    ensures |r| == n && forall i :: 0 <= i < n ==> r[i] == '0'
  {
    seq(n, _ => '0')
  }

  /** `str.zfill(width)` on a digit string (the sign handling of `zfill` never
      applies to digits). */
  function ZFill(s: string, width: nat): (r: string)
    requires AllDigits(s)
    ensures |r| == if |s| >= width then |s| else width
    ensures EndsWith(r, s)
    ensures forall i :: 0 <= i < |r| - |s| ==> r[i] == '0'
  {
    if |s| >= width then s else Zeros(width - |s|) + s
  }

  function DigitValue(c: char): nat
    requires IsDigit(c)
  {
    c as int - '0' as int
  }

  /** The number a digit string denotes. */
  function NumberOf(s: string): nat
    requires AllDigits(s)
    decreases |s|
  {
    if |s| == 0 then 0 else NumberOf(s[..|s| - 1]) * 10 + DigitValue(s[|s| - 1])
  }

  /** Leading zeros do not change the number a digit string denotes. */
  lemma {:induction false} NumberOfLeadingZeros(z: string, s: string)
    requires forall i :: 0 <= i < |z| ==> z[i] == '0'
    requires AllDigits(s)
    ensures AllDigits(z + s)
    ensures NumberOf(z + s) == NumberOf(s)
    decreases |s|
  {
    if |s| == 0 {
      NumberOfZeros(z);
      assert z + s == z;
    } else {
      var s' := s[..|s| - 1];
      NumberOfLeadingZeros(z, s');
      assert (z + s)[..|z + s| - 1] == z + s';
    }
  }

  lemma {:induction false} NumberOfZeros(z: string)
    requires forall i :: 0 <= i < |z| ==> z[i] == '0'
    ensures AllDigits(z) && NumberOf(z) == 0
    decreases |z|
  {
    if |z| > 0 {
      NumberOfZeros(z[..|z| - 1]);
    }
  }

  /** Index of the first `c` in `s`, or `|s|` when there is none. */
  function IndexOf(s: string, c: char): (k: nat)
    ensures k <= |s|
    ensures forall i :: 0 <= i < k ==> s[i] != c
    ensures k < |s| ==> s[k] == c
    decreases |s|
  {
    if |s| == 0 then 0 else if s[0] == c then 0 else 1 + IndexOf(s[1..], c)
  }

  /** `sep.join(parts)`. */
  function Join(parts: seq<string>, sep: string): string
    decreases |parts|
  {
    if |parts| == 0 then ""
    else if |parts| == 1 then parts[0]
    else parts[0] + sep + Join(parts[1..], sep)
  }

  /** `s.split(c)` for a one-character separator. */
  function Split(s: string, c: char): (parts: seq<string>)
    ensures |parts| > 0
    decreases |s|
  {
    var k := IndexOf(s, c);
    if k == |s| then [s] else [s[..k]] + Split(s[k + 1..], c)
  }

  /** Splitting a join recovers the parts, provided no part contains the separator. */
  lemma {:induction false} SplitJoin(parts: seq<string>, c: char)
    requires |parts| > 0
    requires forall p, i :: p in parts && 0 <= i < |p| ==> p[i] != c
    ensures Split(Join(parts, [c]), c) == parts
    decreases |parts|
  {
    var p := parts[0];
    if |parts| == 1 {
      assert IndexOf(p, c) == |p|;
    } else {
      var rest := Join(parts[1..], [c]);
      var s := p + [c] + rest;
      assert Join(parts, [c]) == s;
      assert forall i :: 0 <= i < |p| ==> s[i] == p[i];
      assert s[|p|] == c;
      IndexOfFirst(s, c, |p|);
      assert s[..|p|] == p;
      assert s[|p| + 1..] == rest;
      SplitJoin(parts[1..], c);
      assert parts == [p] + parts[1..];
    }
  }

  lemma IndexOfFirst(s: string, c: char, k: nat)
    requires k < |s| && s[k] == c
    requires forall i :: 0 <= i < k ==> s[i] != c
    ensures IndexOf(s, c) == k
  {
  }
}
