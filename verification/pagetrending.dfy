/** The advice icon of page_trending.py. */
module PageTrending {
  import opened Wrappers
  import opened Text

  const StrongBuy := "强烈买入"
  const BuyWord := "买入"
  const WaitWord := "观望"
  const CautionWord := "谨慎"

  const Rocket := "🚀"
  const ThumbsUp := "👍"
  const Eyes := "👀"
  const Warning := "⚠️"
  const ThumbsDown := "👎"

  /** `advice_icon`: the first keyword found, in the order strong buy, buy,
      wait, caution, picks the icon; anything else gets a thumbs-down. */
  function AdviceIcon(advice: string): (icon: string)
    ensures icon == Rocket <==> Contains(advice, StrongBuy)
    ensures icon == ThumbsUp <==> !Contains(advice, StrongBuy) && Contains(advice, BuyWord)
    ensures icon == Eyes <==> !Contains(advice, BuyWord) && Contains(advice, WaitWord)
    ensures icon == Warning <==> !Contains(advice, BuyWord) && !Contains(advice, WaitWord) && Contains(advice, CautionWord)
    ensures icon == ThumbsDown <==>
      !Contains(advice, BuyWord) && !Contains(advice, WaitWord) && !Contains(advice, CautionWord)
  {
    StrongBuyIsBuy(advice);
    if Contains(advice, StrongBuy) then Rocket
    else if Contains(advice, BuyWord) then ThumbsUp
    else if Contains(advice, WaitWord) then Eyes
    else if Contains(advice, CautionWord) then Warning
    else ThumbsDown
  }

  /** "强烈买入" contains "买入", so a strong-buy text would also match the
      plain buy rule if that rule came first. */
  lemma StrongBuyIsBuy(advice: string)
    ensures Contains(advice, StrongBuy) ==> Contains(advice, BuyWord)
  {
    if Contains(advice, StrongBuy) {
      assert StrongBuy == "强烈" + BuyWord;
      ContainsTail(advice, "强烈", BuyWord);
    }
  }

  /** The shown advice: the icon, a space, then the text unchanged. */
  function Display(advice: string): (shown: string)
    ensures exists k :: 0 < k < |shown| && shown[..k] == AdviceIcon(advice) && shown[k] == ' ' && shown[k + 1..] == advice
  {
    var icon := AdviceIcon(advice);
    var shown := icon + " " + advice;
    assert shown[..|icon|] == icon && shown[|icon| + 1..] == advice;
    shown
  }

  /** The icons `advice_icon` can return, in the order of its rules. */
  const Icons := [Rocket, ThumbsUp, Eyes, Warning, ThumbsDown]

  /** Reads the advice text back from a shown cell: the rest after the first
      icon of `icons` that, followed by a space, starts the cell. */
  function StripIcon(icons: seq<string>, shown: string): (r: Option<string>)
    ensures r.Some? ==> exists m :: 0 <= m < |icons| && shown == icons[m] + " " + r.value
  {
    if icons == [] then None
    else
      var p := icons[0] + " ";
      if |p| <= |shown| && shown[..|p|] == p then
        assert shown == icons[0] + " " + shown[|p|..];
        Some(shown[|p|..])
      else
        var r := StripIcon(icons[1..], shown);
        if r.Some? then
          var m :| 0 <= m < |icons[1..]| && shown == icons[1..][m] + " " + r.value;
          assert icons[1..][m] == icons[m + 1];
          r
        else r
  }

  /** The shown cell gives back the advice text it was built from. */
  lemma DisplayRoundTrip(advice: string)
    ensures StripIcon(Icons, Display(advice)) == Some(advice)
  {
    var icon := AdviceIcon(advice);
    var shown := Display(advice);
    assert shown == icon + " " + advice;
    var m :| 0 <= m < |Icons| && Icons[m] == icon by {
      assert icon in Icons;
    }
    StripAt(Icons, m, advice);
  }

  /** An icon whose first character no earlier icon shares is read back by
      `StripIcon` with the rest of the cell. */
  lemma {:induction false} StripAt(icons: seq<string>, m: nat, advice: string)
    requires m < |icons| && |icons[m]| > 0
    requires forall n :: 0 <= n < m ==> |icons[n]| > 0 && icons[n][0] != icons[m][0]
    ensures StripIcon(icons, icons[m] + " " + advice) == Some(advice)
    decreases m
  {
    var shown := icons[m] + " " + advice;
    var p := icons[0] + " ";
    if m == 0 {
      assert shown[..|p|] == p;
      assert shown[|p|..] == advice;
    } else {
      assert shown[0] != p[0];
      assert !(|p| <= |shown| && shown[..|p|] == p);
      assert icons[1..][m - 1] == icons[m];
      StripAt(icons[1..], m - 1, advice);
    }
  }

  /** Different advice texts are shown differently. */
  lemma DisplayInjective(a: string, b: string)
    ensures Display(a) == Display(b) ==> a == b
  {
    DisplayRoundTrip(a);
    DisplayRoundTrip(b);
  }
}
