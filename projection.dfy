/**
 * The reward-projection calculation of the calculator's submit handler:
 * from a CC (Canton) amount per payout and a payout interval in minutes it
 * derives the CC earned per hour, day, 30-day month and 365-day year, adds the
 * USD value of those figures when the CC price is usable, and adds an APR on a
 * SEND position when the SEND holdings, the SEND price and the yearly USD
 * figure are all available.
 *
 * Numbers are exact reals. A value that is NaN, null or unparsed is `None`.
 */
module Projection {
  import opened Wrappers

  /** A parsed form field or a price slot: `None` is NaN or null. */
  type Num = Option<real>

  const MinutesPerHour: real := 60.0
  const HoursPerDay: real := 24.0
  /** The calculator's fixed calendar: a month is 30 days, a year 365 days. */
  const DaysPerMonth: real := 30.0
  const DaysPerYear: real := 365.0

  /** CC earned per period. */
  datatype Native = Native(perHour: real, perDay: real, perMonth: real, perYear: real)

  /** The same four figures in USD, at the CC price. */
  datatype Usd = Usd(usdPerHour: real, usdPerDay: real, usdPerMonth: real, usdPerYear: real)

  /** The APR of the yearly USD output against the USD value of the SEND position. */
  datatype Apr = Apr(aprPercent: real, positionValueUsd: real)

  /**
   * The `data` object the handler publishes: the native figures are always
   * there; the USD group and the APR pair are there or not as a whole.
   */
  datatype Results = Results(native: Native, usd: Option<Usd>, apr: Option<Apr>)

  /**
   * `x != null && !isNaN(x) && x > 0`, the test on the CC price and on the
   * SEND price. The holdings get `sendHold && !isNaN(sendHold) && sendHold > 0`
   * instead, which over parsed numbers is the same test.
   */
  predicate Usable(x: Num)
  {
    x.Some? && x.value > 0.0
  }

  /**
   * The input gate: `isNaN(amount) || isNaN(freq) || freq <= 0 || amount < 0`.
   * An accepted input is a non-negative amount and a positive interval.
   */
  predicate Rejects(amount: Num, freq: Num)
  {
    amount.None? || freq.None? || freq.value <= 0.0 || amount.value < 0.0
  }

  /**
   * `n` projects `amount` CC every `freq` minutes: the hourly figure times the
   * interval is the amount times 60, a day is 24 hours, a month 30 days and a
   * year 365 days.
   */
  predicate Projects(n: Native, amount: real, freq: real)
  {
    && n.perHour * freq == amount * MinutesPerHour
    && n.perDay == n.perHour * HoursPerDay
    && n.perMonth == n.perDay * DaysPerMonth
    && n.perYear == n.perDay * DaysPerYear
  }

  /**
   * The native projections of `amount` CC every `freq` minutes: the hourly
   * figure is the per-minute rate times 60, and every longer period is the
   * hourly figure times the hours it lasts.
   */
  function ProjectNative(amount: real, freq: real): (n: Native)
    requires freq > 0.0
    ensures Projects(n, amount, freq)
    ensures n.perMonth == 720.0 * n.perHour
    ensures n.perYear == 8760.0 * n.perHour
    ensures amount >= 0.0 ==> 0.0 <= n.perHour <= n.perDay <= n.perMonth <= n.perYear
  {
    var perMinute := amount / freq;
    var perHour := perMinute * MinutesPerHour;
    var perDay := perHour * HoursPerDay;
    Native(perHour, perDay, perDay * DaysPerMonth, perDay * DaysPerYear)
  }

  /** The four native figures priced at `price` USD per CC. */
  function ToUsd(n: Native, price: real): (u: Usd)
    ensures u.usdPerHour == n.perHour * price && u.usdPerDay == n.perDay * price
    ensures u.usdPerMonth == n.perMonth * price && u.usdPerYear == n.perYear * price
    ensures price > 0.0 && 0.0 <= n.perHour <= n.perDay <= n.perMonth <= n.perYear
            ==> 0.0 <= u.usdPerHour <= u.usdPerDay <= u.usdPerMonth <= u.usdPerYear
  {
    Usd(n.perHour * price, n.perDay * price, n.perMonth * price, n.perYear * price)
  }

  /**
   * The APR pair of a position of `holdings` SEND at `sendPrice` USD, as the
   * handler computes it, including its `positionValueUsd > 0` guard.
   */
  function PositionApr(usdPerYear: real, holdings: real, sendPrice: real): (r: Option<Apr>)
    ensures r.Some? <==> holdings * sendPrice > 0.0
    ensures r.Some? ==> r.value.positionValueUsd == holdings * sendPrice
    ensures r.Some? ==> r.value.aprPercent * r.value.positionValueUsd == usdPerYear * 100.0
  {
    var positionValueUsd := holdings * sendPrice;
    if positionValueUsd > 0.0 then
      Some(Apr(usdPerYear / positionValueUsd * 100.0, positionValueUsd))
    else
      None
  }

  /**
   * What a submission publishes: `None` when the gate rejects the input
   * (`setResults(null)`), otherwise the freshly built result set.
   */
  function Compute(amount: Num, freq: Num, holdings: Num, cantonPrice: Num, sendPrice: Num): (r: Option<Results>)
    ensures r.None? <==> Rejects(amount, freq)
    ensures r.Some? ==> r.value.native == ProjectNative(amount.value, freq.value)
    ensures r.Some? ==> (r.value.usd.Some? <==> Usable(cantonPrice))
    ensures r.Some? ==> (r.value.apr.Some? <==> Usable(holdings) && Usable(sendPrice) && Usable(cantonPrice))
  {
    if Rejects(amount, freq) then
      None
    else
      var native := ProjectNative(amount.value, freq.value);
      var usd := if Usable(cantonPrice) then Some(ToUsd(native, cantonPrice.value)) else None;
      var apr :=
        if Usable(holdings) && Usable(sendPrice) && usd.Some? then
          PositionApr(usd.value.usdPerYear, holdings.value, sendPrice.value)
        else
          None;
      Some(Results(native, usd, apr))
  }

  /** Nothing is published exactly when the amount or the interval is NaN, the interval is not positive or the amount is negative. */
  lemma InputGate(amount: Num, freq: Num, holdings: Num, cantonPrice: Num, sendPrice: Num)
    ensures Compute(amount, freq, holdings, cantonPrice, sendPrice).None?
        <==> amount.None? || freq.None? || freq.value <= 0.0 || amount.value < 0.0
  {
  }

  /** On accepted input the USD group is published exactly when the CC price is a number above zero. */
  lemma UsdGroupPresence(amount: Num, freq: Num, holdings: Num, cantonPrice: Num, sendPrice: Num)
    ensures var r := Compute(amount, freq, holdings, cantonPrice, sendPrice);
      r.Some? ==> (r.value.usd.Some? <==> cantonPrice.Some? && cantonPrice.value > 0.0)
  {
  }

  /**
   * On accepted input the APR pair is published exactly when the holdings, the
   * SEND price and the CC price are all numbers above zero.
   */
  lemma AprPairPresence(amount: Num, freq: Num, holdings: Num, cantonPrice: Num, sendPrice: Num)
    ensures var r := Compute(amount, freq, holdings, cantonPrice, sendPrice);
      r.Some? ==>
        (r.value.apr.Some? <==>
           && holdings.Some? && holdings.value > 0.0
           && sendPrice.Some? && sendPrice.value > 0.0
           && cantonPrice.Some? && cantonPrice.value > 0.0)
  {
  }

  /**
   * Whatever the prices and the holdings, an accepted input gets its four
   * native projections, and they are the same ones: an unusable holdings
   * value or a missing price never blocks or changes them.
   */
  lemma NativeAlwaysPresent(amount: Num, freq: Num, holdings: Num, cantonPrice: Num, sendPrice: Num,
                            holdings': Num, cantonPrice': Num, sendPrice': Num)
    requires !Rejects(amount, freq)
    ensures Compute(amount, freq, holdings, cantonPrice, sendPrice).Some?
    ensures Compute(amount, freq, holdings', cantonPrice', sendPrice').Some?
    ensures Compute(amount, freq, holdings, cantonPrice, sendPrice).value.native
         == Compute(amount, freq, holdings', cantonPrice', sendPrice').value.native
  {
  }

  /** The native projections in closed form: CC per payout, times payouts per period. */
  lemma NativeClosedForm(amount: Num, freq: Num, holdings: Num, cantonPrice: Num, sendPrice: Num)
    requires !Rejects(amount, freq)
    ensures var n := Compute(amount, freq, holdings, cantonPrice, sendPrice).value.native;
      && n.perHour == amount.value * 60.0 / freq.value
      && n.perDay == amount.value * 1440.0 / freq.value
      && n.perMonth == amount.value * 43200.0 / freq.value
      && n.perYear == amount.value * 525600.0 / freq.value
      && n.perYear >= 0.0
  {
  }

  /** Each USD figure is its native figure at the CC price. */
  lemma UsdAtCantonPrice(amount: Num, freq: Num, holdings: Num, cantonPrice: Num, sendPrice: Num)
    requires !Rejects(amount, freq) && Usable(cantonPrice)
    ensures var r := Compute(amount, freq, holdings, cantonPrice, sendPrice).value;
      && r.usd.Some?
      && r.usd.value.usdPerHour == r.native.perHour * cantonPrice.value
      && r.usd.value.usdPerDay == r.native.perDay * cantonPrice.value
      && r.usd.value.usdPerMonth == r.native.perMonth * cantonPrice.value
      && r.usd.value.usdPerYear == r.native.perYear * cantonPrice.value
  {
  }

  /** An APR never appears without the USD group, hence never without a usable CC price. */
  lemma AprNeedsUsd(amount: Num, freq: Num, holdings: Num, cantonPrice: Num, sendPrice: Num)
    requires Compute(amount, freq, holdings, cantonPrice, sendPrice).Some?
    requires Compute(amount, freq, holdings, cantonPrice, sendPrice).value.apr.Some?
    ensures Compute(amount, freq, holdings, cantonPrice, sendPrice).value.usd.Some?
    ensures Usable(cantonPrice)
  {
  }

  /**
   * When the APR pair is present the position is worth holdings times the
   * SEND price, which is positive, and the APR is the yearly USD output as a
   * percentage of it.
   */
  lemma AprOfPosition(amount: Num, freq: Num, holdings: Num, cantonPrice: Num, sendPrice: Num)
    requires Compute(amount, freq, holdings, cantonPrice, sendPrice).Some?
    requires Compute(amount, freq, holdings, cantonPrice, sendPrice).value.apr.Some?
    ensures var r := Compute(amount, freq, holdings, cantonPrice, sendPrice).value;
      && r.apr.value.positionValueUsd == holdings.value * sendPrice.value
      && r.apr.value.positionValueUsd > 0.0
      && r.apr.value.aprPercent * r.apr.value.positionValueUsd == r.usd.value.usdPerYear * 100.0
  {
  }

  /** The APR in closed form over the five inputs. */
  lemma AprClosedForm(amount: Num, freq: Num, holdings: Num, cantonPrice: Num, sendPrice: Num)
    requires !Rejects(amount, freq) && Usable(holdings) && Usable(sendPrice) && Usable(cantonPrice)
    ensures var r := Compute(amount, freq, holdings, cantonPrice, sendPrice).value;
      && r.apr.Some?
      && r.apr.value.aprPercent
         == amount.value * 525600.0 * cantonPrice.value * 100.0 / (freq.value * holdings.value * sendPrice.value)
  {
  }

  /**
   * The calculator's promise as equations on the result. The products and the
   * period multiples are the handler's own lines written as equalities; its
   * two divisions become products: the hourly figure times the interval is
   * the amount times 60, and the APR times the position value is the yearly
   * USD output times 100. Nothing is published exactly on rejected input; the
   * USD group is there exactly with a usable CC price; the APR pair is there
   * exactly with usable holdings, a usable SEND price and the USD group.
   */
  ghost predicate Expected(amount: Num, freq: Num, holdings: Num, cantonPrice: Num, sendPrice: Num, r: Option<Results>)
  {
    (r.None? <==> Rejects(amount, freq)) &&
    (r.Some? ==>
      var n := r.value.native;
      && Projects(n, amount.value, freq.value)
      && (r.value.usd.Some? <==> Usable(cantonPrice))
      && (r.value.usd.Some? ==>
            var u := r.value.usd.value;
            && u.usdPerHour == n.perHour * cantonPrice.value
            && u.usdPerDay == n.perDay * cantonPrice.value
            && u.usdPerMonth == n.perMonth * cantonPrice.value
            && u.usdPerYear == n.perYear * cantonPrice.value)
      && (r.value.apr.Some? <==> Usable(holdings) && Usable(sendPrice) && r.value.usd.Some?)
      && (r.value.apr.Some? ==>
            var a := r.value.apr.value;
            && a.positionValueUsd == holdings.value * sendPrice.value
            && a.aprPercent * a.positionValueUsd == r.value.usd.value.usdPerYear * 100.0))
  }

  /** The calculation keeps its promise. */
  lemma ComputeMeetsExpected(amount: Num, freq: Num, holdings: Num, cantonPrice: Num, sendPrice: Num)
    ensures Expected(amount, freq, holdings, cantonPrice, sendPrice, Compute(amount, freq, holdings, cantonPrice, sendPrice))
  {
  }

  /** The promise leaves no freedom: the calculation is the only result that keeps it. */
  lemma ExpectedIsCompute(amount: Num, freq: Num, holdings: Num, cantonPrice: Num, sendPrice: Num, r: Option<Results>)
    requires Expected(amount, freq, holdings, cantonPrice, sendPrice, r)
    ensures r == Compute(amount, freq, holdings, cantonPrice, sendPrice)
  {
    var c := Compute(amount, freq, holdings, cantonPrice, sendPrice);
    if r.Some? {
      var n, m := r.value.native, c.value.native;
      var a, f := amount.value, freq.value;
      // Division by a positive frequency undoes the multiplication.
      assert n.perHour == n.perHour * f / f == a * MinutesPerHour / f;
      assert m.perHour == a * MinutesPerHour / f;
      assert n == m;
      if Usable(cantonPrice) {
        assert c.value.usd == Some(ToUsd(m, cantonPrice.value));
        var u, p := r.value.usd.value, cantonPrice.value;
        assert u.usdPerHour == n.perHour * p && u.usdPerDay == n.perDay * p;
        assert u.usdPerMonth == n.perMonth * p && u.usdPerYear == n.perYear * p;
        assert u == ToUsd(n, p);
      }
      if r.value.apr.Some? {
        var x := r.value.apr.value;
        var pv := x.positionValueUsd;
        assert pv > 0.0;
        assert x.aprPercent == x.aprPercent * pv / pv == r.value.usd.value.usdPerYear * 100.0 / pv;
        assert c.value.apr == PositionApr(c.value.usd.value.usdPerYear, holdings.value, sendPrice.value);
        assert x == Apr(r.value.usd.value.usdPerYear / pv * 100.0, pv);
      }
    }
  }

  /**
   * A worked submission: 3.5 CC every 11 minutes, CC at 0.05 USD, and
   * 500000 SEND at 0.01 USD (a 5000 USD position).
   */
  lemma SampleSubmission()
    ensures Compute(Some(3.5), Some(11.0), Some(500000.0), Some(0.05), Some(0.01))
         == Some(Results(Native(210.0 / 11.0, 5040.0 / 11.0, 151200.0 / 11.0, 1839600.0 / 11.0),
                         Some(Usd(21.0 / 22.0, 252.0 / 11.0, 7560.0 / 11.0, 91980.0 / 11.0)),
                         Some(Apr(9198.0 / 55.0, 5000.0))))
    ensures Compute(Some(3.5), Some(11.0), Some(0.0), Some(0.05), Some(0.01)).value.apr == None
    ensures Compute(Some(3.5), Some(11.0), Some(500000.0), None, Some(0.01)).value.usd == None
    ensures Compute(Some(3.5), Some(0.0), Some(500000.0), Some(0.05), Some(0.01)) == None
    ensures Compute(Some(-1.0), Some(11.0), Some(500000.0), Some(0.05), Some(0.01)) == None
  {
  }
}
