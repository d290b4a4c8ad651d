/** Ticker normalisation of utils.py: user input to the Yahoo form ("0700.HK")
    and to the Finnhub form ("0700-HK"). */
module Tickers {
  import opened Text

  const HkSuffix := ".HK"
  const FinnhubSuffix := "-HK"
  /** What both functions return for a code made only of zeros. */
  const AllZeroCode := "0000.HK"

  /** The input after `strip().upper()` and, when it then ends with ".HK",
      after every ".HK" in it has been removed. */
  function Cleaned(t: string): string {
    var u := ToUpper(Strip(t));
    if EndsWith(u, HkSuffix) then RemoveAll(u, HkSuffix) else u
  }

  /** The digits in front of a three-character suffix. */
  function CodeOf(r: string): string
    requires |r| >= 3
  {
    r[..|r| - 3]
  }

  /** The canonical exchange code: digits, at least four of them, and a
      leading zero only when exactly four are needed. */
  predicate IsCanonicalCode(code: string) {
    IsDigitString(code) && |code| >= 4 && (|code| == 4 || code[0] != '0')
  }

  /** The normalisation both utils.py functions share, applied to the cleaned
      input and parameterised by the suffix appended to a nonzero digit code. */
  function NormaliseCode(c: string, suffix: string): string {
    if !IsDigitString(c) then c
    else
      var z := LStripZeros(c);
      if |z| == 0 then AllZeroCode else ZFill(z, 4) + suffix
  }

  /** `process_hk_ticker`. */
  function ProcessHk(t: string): (r: string)
    requires IsAscii(t)
    ensures !IsDigitString(Cleaned(t)) ==> r == Cleaned(t)
    ensures IsDigitString(Cleaned(t)) ==>
      && EndsWith(r, HkSuffix)
      && IsCanonicalCode(CodeOf(r))
      && NumberOf(CodeOf(r)) == NumberOf(Cleaned(t))
  {
    var c := Cleaned(t);
    NormaliseDigits(c, HkSuffix);
    NormaliseCode(c, HkSuffix)
  }

  /** `process_finnhub_ticker`: like `process_hk_ticker`, except that a
      nonzero digit code gets "-HK"; an all-zero code still gets "0000.HK". */
  function ProcessFinnhub(t: string): (r: string)
    requires IsAscii(t)
    ensures !IsDigitString(Cleaned(t)) ==> r == Cleaned(t)
    ensures IsDigitString(Cleaned(t)) && NumberOf(Cleaned(t)) == 0 ==> r == AllZeroCode
    ensures IsDigitString(Cleaned(t)) && NumberOf(Cleaned(t)) != 0 ==>
      && EndsWith(r, FinnhubSuffix)
      && IsCanonicalCode(CodeOf(r))
      && NumberOf(CodeOf(r)) == NumberOf(Cleaned(t))
  {
    var c := Cleaned(t);
    NormaliseDigits(c, FinnhubSuffix);
    NormaliseCode(c, FinnhubSuffix)
  }

  /** The digit branch of the normalisation keeps the number and yields a canonical code. */
  lemma NormaliseDigits(c: string, suffix: string)
    requires |suffix| == 3
    ensures IsDigitString(c) ==> |NormaliseCode(c, suffix)| >= 3
    ensures IsDigitString(c) ==> IsCanonicalCode(CodeOf(NormaliseCode(c, suffix)))
    ensures IsDigitString(c) ==> NumberOf(CodeOf(NormaliseCode(c, suffix))) == NumberOf(c)
    ensures IsDigitString(c) ==> (NumberOf(c) == 0 <==> NormaliseCode(c, suffix) == AllZeroCode)
    ensures IsDigitString(c) && NumberOf(c) != 0 ==> EndsWith(NormaliseCode(c, suffix), suffix)
  {
    if IsDigitString(c) {
      var z := LStripZeros(c);
      var k := |c| - |z|;
      assert c == c[..k] + z;
      assert AllDigits(z);
      NumberOfLeadingZeros(c[..k], z);
      if |z| == 0 {
        NormaliseZero(c, suffix);
        AllZeroCodeCanonical();
      } else {
        NormaliseNonzero(z, suffix);
      }
    }
  }

  lemma NormaliseZero(c: string, suffix: string)
    requires IsDigitString(c) && |LStripZeros(c)| == 0
    ensures NormaliseCode(c, suffix) == AllZeroCode
    ensures NumberOf(c) == 0
  {
    NumberOfZeros(c);
  }

  /** The all-zero result carries the canonical code "0000". */
  lemma AllZeroCodeCanonical()
    ensures |AllZeroCode| == 7 && CodeOf(AllZeroCode) == "0000"
    ensures IsCanonicalCode(CodeOf(AllZeroCode)) && NumberOf(CodeOf(AllZeroCode)) == 0
  {
    assert AllZeroCode == "0000" + HkSuffix;
    NumberOfZeros("0000");
  }

  lemma NormaliseNonzero(z: string, suffix: string)
    requires AllDigits(z) && |z| > 0 && z[0] != '0' && |suffix| == 3
    ensures |ZFill(z, 4) + suffix| >= 3
    ensures CodeOf(ZFill(z, 4) + suffix) == ZFill(z, 4)
    ensures IsCanonicalCode(ZFill(z, 4))
    ensures NumberOf(ZFill(z, 4)) == NumberOf(z) != 0
    ensures ZFill(z, 4) + suffix != AllZeroCode
    ensures EndsWith(ZFill(z, 4) + suffix, suffix)
  {
    var p := ZFill(z, 4);
    var r := p + suffix;
    assert CodeOf(r) == p;
    assert p == p[..|p| - |z|] + z;
    NumberOfLeadingZeros(p[..|p| - |z|], z);
    NonzeroLead(z);
    if |p| > 4 {
      assert p == z;
    }
  }

  /** A digit string that does not start with '0' denotes a nonzero number. */
  lemma NonzeroLead(z: string)
    requires IsDigitString(z) && z[0] != '0'
    ensures NumberOf(z) != 0
  {
    if NumberOf(z) == 0 {
      AllZeroWhenZero(z);
    }
  }

  lemma {:induction false} AllZeroWhenZero(s: string)
    requires AllDigits(s) && NumberOf(s) == 0
    ensures forall i :: 0 <= i < |s| ==> s[i] == '0'
    decreases |s|
  {
    if |s| > 0 {
      AllZeroWhenZero(s[..|s| - 1]);
      assert forall i :: 0 <= i < |s| - 1 ==> s[i] == s[..|s| - 1][i];
    }
  }

  /** Removing ".HK" from a string whose only '.' is in the final ".HK" leaves the rest. */
  lemma {:induction false} RemoveTrailingSuffix(a: string, pat: string)
    requires |pat| > 0
    requires forall i :: 0 <= i < |a| ==> a[i] != pat[0]
    ensures RemoveAll(a + pat, pat) == a
    decreases |a|
  {
    if |a| == 0 {
      assert a + pat == pat;
      assert RemoveAll(pat, pat) == RemoveAll(pat[|pat|..], pat);
      assert pat[|pat|..] == [];
    } else {
      assert !StartsWith(a + pat, pat) by {
        assert (a + pat)[0] == a[0];
      }
      assert (a + pat)[1..] == a[1..] + pat;
      RemoveTrailingSuffix(a[1..], pat);
      assert a == [a[0]] + a[1..];
    }
  }

  /** A canonical code survives another round of zero stripping and padding. */
  lemma RepadCanonical(code: string)
    requires IsCanonicalCode(code)
    ensures var z := LStripZeros(code);
      (|z| == 0 <==> code == "0000") && (|z| > 0 ==> ZFill(z, 4) == code)
  {
    var z := LStripZeros(code);
    if |z| == 0 {
      assert code[0] == '0';
      assert |code| == 4;
      assert forall i :: 0 <= i < 4 ==> code[i] == '0';
      assert code == "0000";
    } else {
      assert AllDigits(z);
      if code[0] != '0' {
        assert z == code;
      } else {
        RepadShort(code, z);
      }
    }
  }

  lemma RepadShort(code: string, z: string)
    requires |code| == 4 && AllDigits(code) && z == LStripZeros(code) && |z| > 0
    ensures AllDigits(z) && ZFill(z, 4) == code
  {
    var p := ZFill(z, 4);
    assert |p| == 4;
    forall i | 0 <= i < 4
      ensures p[i] == code[i]
    {
      if i < 4 - |z| {
        assert p[i] == '0' == code[i];
      } else {
        assert p[i] == z[i - (4 - |z|)] == code[i];
      }
    }
  }

  /** A character that `strip()` and `upper()` leave alone. */
  predicate Plain(ch: char) {
    ch as int < 128 && !IsSpace(ch) && UpperChar(ch) == ch
  }

  lemma PlainCode(code: string)
    requires IsCanonicalCode(code)
    ensures forall i :: 0 <= i < |code + HkSuffix| ==> Plain((code + HkSuffix)[i])
  {
    var r := code + HkSuffix;
    forall i | 0 <= i < |r|
      ensures Plain(r[i])
    {
      if i < |code| {
        assert r[i] == code[i];
      } else {
        assert r[i] == HkSuffix[i - |code|];
      }
    }
  }

  lemma PlainUnchanged(r: string)
    requires forall i :: 0 <= i < |r| ==> Plain(r[i])
    ensures IsAscii(r)
    ensures ToUpper(Strip(r)) == r
  {
    StripNoSpace(r);
    UpperPlain(r);
  }

  lemma UpperPlain(r: string)
    requires forall i :: 0 <= i < |r| ==> Plain(r[i])
    ensures ToUpper(r) == r
  {
    var u := ToUpper(r);
    assert forall i :: 0 <= i < |r| ==> u[i] == r[i];
  }

  lemma CleanedCode(code: string)
    requires IsCanonicalCode(code)
    ensures IsAscii(code + HkSuffix)
    ensures Cleaned(code + HkSuffix) == code
  {
    var r := code + HkSuffix;
    assert EndsWith(r, HkSuffix) by {
      assert r[|code|..] == HkSuffix;
    }
    RemoveTrailingSuffix(code, HkSuffix);
    PlainCode(code);
    PlainUnchanged(r);
  }

  /** A Hong Kong digit code is a fixed point: normalising "0700.HK" gives "0700.HK". */
  lemma ProcessHkIdempotentOnCodes(t: string)
    requires IsAscii(t) && IsDigitString(Cleaned(t))
    ensures IsAscii(ProcessHk(t))
    ensures ProcessHk(ProcessHk(t)) == ProcessHk(t)
  {
    var r := ProcessHk(t);
    var code := CodeOf(r);
    assert r == code + HkSuffix;
    CleanedCode(code);
    RepadCanonical(code);
  }
}
