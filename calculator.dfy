/**
 * The calculator's `results` state slot and the submit handler that writes
 * it. The handler reads the parsed form fields and the two price slots, and
 * either clears `results` or replaces it with a result set it builds field
 * group by field group.
 */
module Calculator {
  import opened Wrappers
  import opened Projection

  class RewardCalculator {
    /** The last published result set; `None` is the placeholder state. */
    var results: Option<Results>

    /** The page starts with nothing calculated. */
    constructor ()
      ensures results == None
    {
      results := None;
    }

    /**
     * Handles one form submission: `amount`, `freq` and `holdings` are the
     * parsed form fields, `cantonPrice` and `sendPrice` the current price
     * slots. The slot is overwritten with the freshly built result set, or
     * cleared on rejected input; the previous value plays no part.
     */
    method Calculate(amount: Num, freq: Num, holdings: Num, cantonPrice: Num, sendPrice: Num)
      modifies this
      ensures results == Compute(amount, freq, holdings, cantonPrice, sendPrice)
      ensures Expected(amount, freq, holdings, cantonPrice, sendPrice, results)
    {
      results := BuildResults(amount, freq, holdings, cantonPrice, sendPrice);
    }
  }

  /**
   * The body of the submit handler up to publication: the input gate, then
   * the `data` object, started with the native projections and extended by
   * the USD group and the APR pair when their inputs allow.
   */
  method BuildResults(amount: Num, freq: Num, holdings: Num, cantonPrice: Num, sendPrice: Num)
    returns (r: Option<Results>)
    ensures r == Compute(amount, freq, holdings, cantonPrice, sendPrice)
    ensures Expected(amount, freq, holdings, cantonPrice, sendPrice, r)
  {
    ComputeMeetsExpected(amount, freq, holdings, cantonPrice, sendPrice);
    if Rejects(amount, freq) {
      return None;
    }

    var perMinute := amount.value / freq.value;
    var perHour := perMinute * MinutesPerHour;
    var perDay := perHour * HoursPerDay;
    var perMonth := perDay * DaysPerMonth;
    var perYear := perDay * DaysPerYear;

    var data := Results(Native(perHour, perDay, perMonth, perYear), None, None);
    assert data.native == ProjectNative(amount.value, freq.value);

    if Usable(cantonPrice) {
      var price := cantonPrice.value;
      data := data.(usd := Some(Usd(perHour * price, perDay * price, perMonth * price, perYear * price)));
      assert data.usd.value == ToUsd(data.native, price);
    }

    if Usable(holdings) && Usable(sendPrice) && data.usd.Some? {
      var positionValueUsd := holdings.value * sendPrice.value;
      if positionValueUsd > 0.0 {
        var aprPercent := data.usd.value.usdPerYear / positionValueUsd * 100.0;
        data := data.(apr := Some(Apr(aprPercent, positionValueUsd)));
        assert data.apr == PositionApr(data.usd.value.usdPerYear, holdings.value, sendPrice.value);
      }
    }

    r := Some(data);
  }

  /**
   * A fresh page, then a successful submission, one without holdings and a
   * rejected one: each replaces the slot wholesale, so the APR pair and then
   * the whole result set disappear. The assertions check the states between
   * submissions.
   */
  method ResubmitReplacesResults() returns (c: RewardCalculator)
    ensures fresh(c) && c.results == None
  {
    c := new RewardCalculator();
    assert c.results.None?;
    c.Calculate(Some(3.5), Some(11.0), Some(500000.0), Some(0.05), Some(0.01));
    assert c.results.Some? && c.results.value.apr.Some?;
    c.Calculate(Some(3.5), Some(11.0), Some(0.0), Some(0.05), Some(0.01));
    assert c.results.Some? && c.results.value.usd.Some? && c.results.value.apr.None?;
    c.Calculate(Some(3.5), Some(0.0), Some(500000.0), Some(0.05), Some(0.01));
  }
}
