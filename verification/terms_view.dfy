/**
 * The terms screen (src/components/TermsView.tsx): two hidden counters. Five
 * presses on the warning icon open the seasonal test screen, five on the
 * privacy icon the developer playground, each only when the screen was given
 * that callback.
 */
module TermsView {
  const PressesToOpen := 5

  /** One press: the new count and whether the callback ran. */
  function Press(count: nat, hasCallback: bool): (r: (nat, bool))
    ensures r.1 ==> hasCallback && r.0 == 0
    ensures !r.1 ==> r.0 == count + 1
    ensures hasCallback && count < PressesToOpen ==> r.0 < PressesToOpen
  {
    var n := count + 1;
    if n == PressesToOpen && hasCallback then (0, true) else (n, false)
  }

  /** k presses in a row: the final count and how many times the callback ran. */
  function Presses(count: nat, hasCallback: bool, k: nat): (nat, nat)
  {
    if k == 0 then (count, 0)
    else
      var before := Presses(count, hasCallback, k - 1);
      var after := Press(before.0, hasCallback);
      (after.0, before.1 + if after.1 then 1 else 0)
  }

  /**
   * With the callback the counter runs modulo five and the callback runs once
   * per fifth press; without it the counter only grows and nothing ever runs.
   */
  lemma {:induction false} PressesLaws(count: nat, hasCallback: bool, k: nat)
    requires hasCallback ==> count < PressesToOpen
    ensures hasCallback ==> Presses(count, hasCallback, k) == ((count + k) % PressesToOpen, (count + k) / PressesToOpen)
    ensures !hasCallback ==> Presses(count, hasCallback, k) == (count + k, 0)
  {
    if k > 0 {
      PressesLaws(count, hasCallback, k - 1);
      if hasCallback {
        var m := count + k - 1;
        if m % PressesToOpen == PressesToOpen - 1 {
          assert m + 1 == (m / PressesToOpen + 1) * PressesToOpen;
        } else {
          assert m + 1 == (m / PressesToOpen) * PressesToOpen + (m % PressesToOpen + 1);
        }
      }
    }
  }

  class Terms {
    const hasSeasonalTest: bool
    const hasDevPlayground: bool
    var clickCount: nat
    var privacyClicks: nat

    constructor (hasSeasonalTest: bool, hasDevPlayground: bool)
      ensures this.hasSeasonalTest == hasSeasonalTest && this.hasDevPlayground == hasDevPlayground
      ensures clickCount == 0 && privacyClicks == 0
    {
      this.hasSeasonalTest := hasSeasonalTest;
      this.hasDevPlayground := hasDevPlayground;
      clickCount, privacyClicks := 0, 0;
    }

    /** handleWarningClick; `fired` says whether onShowSeasonalTest ran. */
    method WarningClick() returns (fired: bool)
      modifies this
      ensures (clickCount, fired) == Press(old(clickCount), hasSeasonalTest)
      ensures privacyClicks == old(privacyClicks)
    {
      var newCount := clickCount + 1;
      clickCount := newCount;
      fired := false;
      if newCount == PressesToOpen && hasSeasonalTest {
        fired := true;
        clickCount := 0;
      }
    }

    /** handlePrivacyClick; `fired` says whether onShowDevPlayground ran. */
    method PrivacyClick() returns (fired: bool)
      modifies this
      ensures (privacyClicks, fired) == Press(old(privacyClicks), hasDevPlayground)
      ensures clickCount == old(clickCount)
    {
      var newCount := privacyClicks + 1;
      privacyClicks := newCount;
      fired := false;
      if newCount == PressesToOpen && hasDevPlayground {
        fired := true;
        privacyClicks := 0;
      }
    }
  }
}
