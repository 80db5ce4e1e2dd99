/**
 * The two computed pieces of `buildInvestorPrompt` (App.jsx): the description of the
 * deal type and the enterprise-value range derived from the revenue. The rest of the
 * prompt is fixed wording and is not modelled.
 */
module Prompt {
  import opened Wrappers
  import opened Text

  /**
   * The deal-type lookup. The form only ever sets one of the three ids; an id
   * outside them (an own key of no entry) is `None` here, for `undefined`.
   * Inherited object members such as `toString` are not modelled.
   */
  function DealTypeText(dealType: string): (r: Option<string>)
    ensures r.Some? <==> dealType in {"maggioranza", "totalitaria", "minoranza"}
    ensures dealType == "maggioranza" ==> r == Some("acquisizione di maggioranza (51-80%)")
    ensures dealType == "totalitaria" ==> r == Some("acquisizione totalitaria (100%)")
    ensures dealType == "minoranza" ==> r == Some("investimento di minoranza (10-49%)")
  {
    if dealType == "maggioranza" then Some("acquisizione di maggioranza (51-80%)")
    else if dealType == "totalitaria" then Some("acquisizione totalitaria (100%)")
    else if dealType == "minoranza" then Some("investimento di minoranza (10-49%)")
    else None
  }

  /**
   * `Math.round(num / den)` for an exact rational: the nearest integer, halves
   * rounded up (towards positive infinity, as `Math.round` does for negatives too).
   */
  function RoundHalfUp(num: int, den: nat): (m: int)
    requires den > 0
    ensures 2 * den * m - den <= 2 * num < 2 * den * m + den
  {
    (2 * num + den) / (2 * den)
  }

  /** An even number of tenths never sits exactly halfway, so the rounding is strict on both sides. */
  lemma EvenTenths(b: int, m: int)
    requires 20 * m - 10 <= 4 * b < 20 * m + 10
    ensures 10 * m - 5 < 2 * b < 10 * m + 5
  {
    var k := b - 5 * m;
    assert -10 <= 4 * k < 10;
    assert -2 <= k <= 2;
  }

  /** `Math.round(revenuesNum * 0.8)` for an integer revenue. */
  function EvLow(revenue: int): (lo: int)
    ensures 10 * lo - 5 < 8 * revenue < 10 * lo + 5
  {
    var m := RoundHalfUp(8 * revenue, 10);
    EvenTenths(4 * revenue, m);
    m
  }

  /** `Math.round(revenuesNum * 1.2)` for an integer revenue. */
  function EvHigh(revenue: int): (hi: int)
    ensures 10 * hi - 5 < 12 * revenue < 10 * hi + 5
  {
    var m := RoundHalfUp(12 * revenue, 10);
    EvenTenths(6 * revenue, m);
    m
  }

  const Euro: char := '\U{20AC}'

  /** The EV line: a range in millions when the revenue is a non-zero number, otherwise a placeholder. */
  function EvEstimate(revenuesNum: Option<int>): string {
    if revenuesNum.None? || revenuesNum.value == 0 then "EV da definire"
    else
      var r := revenuesNum.value;
      "EV stimato: " + [Euro] + IntToString(EvLow(r)) + "M - " + [Euro] + IntToString(EvHigh(r)) + "M"
  }

  /** For a positive revenue the range is ordered and brackets the revenue itself. */
  lemma EvRangeOrdered(revenue: int)
    requires revenue > 0
    ensures EvLow(revenue) <= revenue <= EvHigh(revenue)
    ensures EvLow(revenue) <= EvHigh(revenue)
  {
  }

  /** Both ends sit within half a million of 80% and 120% of the revenue. */
  lemma EvRounding(revenue: int)
    ensures -5 < 10 * EvLow(revenue) - 8 * revenue < 5
    ensures -5 < 10 * EvHigh(revenue) - 12 * revenue < 5
  {
  }

  /** A missing or zero revenue gives the placeholder; any other revenue gives a range. */
  lemma EvPlaceholderExactlyWhenNoRevenue(revenuesNum: Option<int>)
    ensures EvEstimate(revenuesNum) == "EV da definire" <==> revenuesNum.None? || revenuesNum.value == 0
  {
    if revenuesNum.Some? && revenuesNum.value != 0 {
      var s := EvEstimate(revenuesNum);
      assert s[0] == 'E' && s[3] == 's';
      assert "EV da definire"[3] == 'd';
    }
  }

  lemma TwentyMillion()
    ensures EvLow(20) == 16 && EvHigh(20) == 24
  {
  }

  /** A revenue of 20 (million) gives "EV stimato: €16M - €24M". */
  lemma EvOfTwenty()
    ensures EvEstimate(Some(20)) == "EV stimato: " + [Euro] + "16M - " + [Euro] + "24M"
  {
    TwentyMillion();
    assert IntToString(16) == "16";
    assert IntToString(24) == "24";
  }
}
