# SEND farm reward calculator: the projection model

The calculator is a single-page form. The user enters a CC (Canton) reward
amount per payout, a payout interval in minutes and, optionally, how many SEND
tokens they hold in the farm. On submission the handler `handleCalculate` does
four things:

- it rejects malformed input by clearing the `results` slot;
- it projects CC earned per hour, per day, per 30-day month and per 365-day year;
- when the CC price is usable, it adds the USD value of those four figures as a group;
- when the SEND holdings, the SEND price and the yearly USD figure are all
  available, it adds the USD value of the SEND position and the APR that the
  yearly USD output represents on it.

It then publishes the new result set in place of the old one.

The model has three modules:

- `Wrappers` holds `Option`. `None` stands for JavaScript's `NaN`, `null` and
  "not set".
- `Projection` holds the result datatypes and the calculation as pure
  functions over exact reals. `Compute` gives what one submission publishes.
  `Expected` states the handler's promise as equations on the result. Most of
  them are the handler's own lines written as equalities. Its two divisions
  become products: hourly figure · interval = amount · 60, and APR · position
  value = yearly USD · 100. The lemmas prove that `Compute` keeps that promise
  and that it is the only result that does. `NativeClosedForm` and
  `AprClosedForm` give the figures as formulas over the inputs, independent of
  the handler's steps.
- `Calculator` holds the handler. `BuildResults` runs the input gate and
  builds the `data` object group by group, as the handler does. The class
  `RewardCalculator` holds the page's `results` state slot. Its method
  `Calculate` overwrites that slot with what `BuildResults` returns, or with
  `None` when the input is rejected.

Price slots are inputs. `cantonPrice` prices the CC output, which is the earned
token. `sendPrice` prices the SEND position, which is the held token. The model
follows the code here.

## Model

| member | source | states |
|---|---|---|
| `Projection.InputGate` | src/App.jsx:94-96 | nothing is published exactly when the amount is NaN, the interval is NaN, the interval is ≤ 0 or the amount is < 0 |
| `Projection.UsdGroupPresence` | src/App.jsx:114-119 | on accepted input the USD group is published exactly when the CC price is non-null, not NaN and > 0 |
| `Projection.AprPairPresence` | src/App.jsx:123-131 | on accepted input the APR pair is published exactly when the holdings are a number > 0, the SEND price is non-null, not NaN and > 0, and the CC price is too (so that `usdPerYear` exists) |
| `Projection.ToUsd` | src/App.jsx:115-118 | each USD figure is its native figure times the price; a positive price keeps the native figures' non-negativity and their hour ≤ day ≤ month ≤ year order |
| `Projection.ProjectNative` | src/App.jsx:99-104 | the hourly figure times the interval equals the amount times 60; a day is 24 hours, a month 720 hours, a year 8760 hours of output; for a non-negative amount all four are non-negative and ordered hour ≤ day ≤ month ≤ year |
| `Projection.PositionApr` | src/App.jsx:132-137 | the APR pair exists iff the position value holdings · sendPrice is > 0; then the position value is that product and APR · position value = yearly USD · 100 |
| `Projection.Compute` | src/App.jsx:88-141 | nothing is published exactly when amount or interval is NaN, the interval is ≤ 0 or the amount is < 0; otherwise the native figures are the projections of the amount and interval, the USD group is present iff the CC price is non-null, non-NaN and > 0, and the APR pair is present iff holdings > 0, the SEND price is usable and the CC price is usable |
| `Projection.NativeAlwaysPresent` | src/App.jsx:106-111 | on accepted input the four native figures are always published, and prices and holdings (valid, empty or NaN) never change them |
| `Projection.NativeClosedForm` | src/App.jsx:100-104 | per hour = amount·60/interval, per day = amount·1440/interval, per month = amount·43200/interval, per year = amount·525600/interval, and the yearly figure is ≥ 0 |
| `Projection.UsdAtCantonPrice` | src/App.jsx:113-119 | with a usable CC price all four USD figures are present, each its native figure times `cantonPrice` |
| `Projection.AprNeedsUsd` | src/App.jsx:123-131 | an APR pair never appears without the USD group, so never without a usable CC price |
| `Projection.AprOfPosition` | src/App.jsx:132-136 | when present, the position value is holdings times `sendPrice`, it is > 0, and APR · position value = yearly USD · 100, so the division never has a zero denominator |
| `Projection.AprClosedForm` | src/App.jsx:122-138 | with all inputs usable the APR is present and equals amount · 525600 · cantonPrice · 100 / (interval · holdings · sendPrice) |
| `Projection.ComputeMeetsExpected` | src/App.jsx:88-141 | the calculation satisfies the equations of `Expected`: null iff rejected, the period multiples, the USD group present iff the CC price is usable and priced at it, the APR pair present iff holdings, SEND price and USD group are all present, with the position and APR relations |
| `Projection.ExpectedIsCompute` | src/App.jsx:88-141 | any result that satisfies the equations of `Expected` is the calculation's result, so the equations determine every published field |
| `Projection.SampleSubmission` | src/App.jsx:99-138 | worked values: 3.5 CC every 11 minutes gives 210/11 CC per hour and 1839600/11 per year; at 0.05 USD per CC that is 91980/11 USD per year; 500000 SEND at 0.01 USD is a 5000 USD position with APR 9198/55 %; zero holdings drops the APR; no CC price drops the USD group; interval 0 or amount −1 publishes nothing |
| `Calculator.RewardCalculator.constructor` | src/App.jsx:24 | the slot starts empty |
| `Calculator.BuildResults` | src/App.jsx:91-138 | the `data` object built field group by field group, as the handler does, is exactly the calculation's result and satisfies `Expected`; rejected input yields nothing |
| `Calculator.RewardCalculator.Calculate` | src/App.jsx:88-141 | after a submission `results` is exactly the calculation's result on the submitted fields and prices, whatever it held before, and it satisfies `Expected` |
| `Calculator.ResubmitReplacesResults` | src/App.jsx:94-140 | a fresh calculator takes three submissions and ends with an empty slot, because the last one is rejected; assertions in the body check the states in between: a full result with an APR, then a result without holdings that keeps the USD group and has no APR left over |

## Left out

- Price fetching (`fetchPrices`, src/App.jsx:27-66) is network I/O. Prices are inputs of type `Option<real>`. In the code both fetches sit in one sequential `try` block, so a failed SEND fetch skips the Canton fetch too; the two prices are not independent.
- `parseFloat` string parsing (src/App.jsx:91-92, 122) is a JavaScript builtin with prefix-parsing quirks. Parsed values are inputs of type `Option<real>`, with `None` for NaN. The truthiness test `sendHold &&` folds into `> 0`.
- IEEE-754 behaviour is out of scope: rounding, underflow, and `Infinity` passing the `isNaN` and `> 0` tests. Numbers are exact reals. Over reals the `positionValueUsd > 0` guard (src/App.jsx:133) always holds once holdings and SEND price are positive. Only floating-point underflow could make it fail.
- Number formatting (`formatNumber`, `formatUsd`, `formatPercent`, src/App.jsx:68-86) is locale formatting done by a foreign library.
- Rendering, the price pills, loading states and styling (src/App.jsx:143-356) are UI, and so is the handler's `e.preventDefault()` (src/App.jsx:89), which only stops the browser's own form submission.
