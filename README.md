# Short-term stock scorer: a verified model

This project models the analysis core of a small Flask service for KOSPI and
KOSDAQ stocks. The service answers `/analyze?symbol=…&capital=…` in four
steps:

1. It normalises the user's symbol into a six-digit code. It reads an
   optional capital amount.
2. It downloads the daily bars of that code.
3. It computes the indicators: the latest close, the 5- and 20-day moving
   averages, the last two volumes and a 14-day RSI. It then scores four
   rules and turns the score into a BUY_STRONG, WATCH or AVOID signal with
   a list of reasons.
4. It adds stop-loss and take-profit prices. When a capital is given, it
   also adds a position of 10% of it, split into tranches of 40%, 30% and
   30%.

Modules:

- `Wrappers`: `Option` and `Result`.
- `Text`: the `[0-9]` and `[0-9.]` filters, `str.strip()`, and digit strings with their values.
- `Inputs`: `build_symbol` and `parse_capital`.
- `Indicators`: means, the RSI and the indicator snapshot.
- `Classifier`: the four-rule scorer. The scorer is a method that builds up a score and a reasons list, as the source does. It is proved equal to a rule-by-rule specification, and the properties are proved about that specification.
- `Planner`: round-half-even rounding, the stop and target levels, and position sizing.
- `Pipeline`: the request handler and the order of its error checks. The download is a function parameter.

Numbers are exact reals and unbounded integers. Python's `float()` on a
string of digits and dots is modelled as an exact `Decimal` (units and
scale). `int(n * 0.4)` and `int(n * 0.3)` are exact tenths, truncated toward
zero.

For the overheated and oversold RSI reasons, the messages say "70 or above"
and "30 or below". The comparisons in the code are strict (`> 70`, `< 30`).
The model follows the comparisons, so an RSI of exactly 70 or 30 gives no
reason.

## Model

| member | source | states |
|---|---|---|
| Text.Digits | server.py:21 | The result holds only ASCII digits and is no longer than the input; a string of digits is its own result and a string without a digit gives the empty string (with `DigitsAppend`, the filter keeps exactly the digits, in order) |
| Text.Cleaned | server.py:36 | The result holds only ASCII digits and dots and is no longer than the input; a string of digits and dots is its own result and a string with neither gives the empty string (with `CleanedAppend`, the filter keeps exactly the digits and dots, in order) |
| Text.TrimStart | server.py:129-130 | The result is a suffix of the input that does not start with whitespace, and everything removed is whitespace |
| Text.TrimEnd | server.py:129-130 | The result is a prefix of the input that does not end with whitespace, and everything removed is whitespace |
| Text.Strip | server.py:129-130 | The result is the input between a run of whitespace at its start and one at its end, where whitespace is the set `str.strip()` removes; it neither starts nor ends with whitespace, and it is empty exactly when the input is all whitespace |
| Text.StripKeepsDecimals | server.py:129-130 | Stripping keeps every digit and every dot of the input, in order |
| Inputs.BuildSymbol | server.py:12-26 | The code is empty exactly when the input has fewer than six digits; otherwise it is six ASCII digits and is the tail of the input's digit sequence |
| Inputs.TrailingCodeIsFound | server.py:12-26 | Six digits followed only by non-digits are the code, whatever comes before them |
| Inputs.BuildSymbolIdempotent | server.py:12-26 | Normalising a code again leaves it unchanged |
| Inputs.BuildSymbolIgnoresNonDigit | server.py:21 | Inserting a non-digit anywhere never changes the code |
| Inputs.BuildSymbolExamplePlain | server.py:16 | "005930" gives "005930" |
| Inputs.BuildSymbolExampleSuffix | server.py:16 | "005930.KS" gives "005930" |
| Inputs.BuildSymbolExamplePrefix | server.py:16 | "삼성전자005930" gives "005930" |
| Inputs.BuildSymbolRejectsShortCode | server.py:18-23 | "" and the five-digit "05930.KS" give "" |
| Inputs.ParseCapital | server.py:29-45 | A value that is returned is strictly positive |
| Inputs.ReadParts | server.py:39-45 | Reading an integer part and what follows the first dot fails exactly when a second dot follows or there is no digit at all; otherwise the units are all the digits read as one number and the scale is the number of digits after the dot |
| Inputs.ReadDecimal | server.py:39-40 | On a string of digits and dots, `float()` succeeds exactly when there is a digit and at most one dot, and it then gives the reference reading: the digits as one number, scaled by the digits after the dot |
| Inputs.ParseCapitalIsSpelledDecimal | server.py:29-45 | The capital is present exactly when the input has a digit and at most one dot, and the value those spell is positive; it is then that value, with every other character ignored |
| Inputs.ParseCapitalSpelledNat | server.py:29-45 | Any positive whole number written in decimal digits reads back as itself |
| Inputs.ParseCapitalIgnoresOtherChar | server.py:32-36 | Thousands separators and any other character that is not a digit or a dot never change the capital |
| Inputs.ParseCapitalRejectsEmpty | server.py:34-38 | "" and "abc" give no capital |
| Inputs.ParseCapitalRejectsLoneDot | server.py:39-45 | "." is a malformed number and gives no capital |
| Inputs.ParseCapitalRejectsTwoDots | server.py:39-45 | "1.2.3" is a malformed number and gives no capital |
| Inputs.ParseCapitalRejectsZeroValue | server.py:41-42 | Any input whose digits read as zero gives no capital, whatever its dot and other characters |
| Inputs.ParseCapitalRejectsZero | server.py:41-42 | "0.00" is not positive and gives no capital |
| Inputs.ParseCapitalGroupedExample | server.py:32 | The documented example "10,000,000" reads as 10000000 |
| Indicators.Deltas | server.py:115 | There is one change fewer than closes, and each is a close minus the one before it |
| Indicators.Gain | server.py:116 | The gain is the change when it is positive and 0 otherwise: it is non-negative, at least the change, and either the change or 0 |
| Indicators.Loss | server.py:117 | The loss is non-negative, at least the negated change, and the gain minus the loss is the change |
| Indicators.Gains | server.py:116 | Each entry is the gain of the change at the same position |
| Indicators.Losses | server.py:117 | Each entry is the loss of the change at the same position |
| Indicators.AverageGain | server.py:119 | The average gain is non-negative, and 14 times it is the sum of the gains of the last 14 changes |
| Indicators.AverageLoss | server.py:120 | The average loss is non-negative, and 14 times it is the sum of the losses of the last 14 changes |
| Indicators.Rsi | server.py:114-124 | Defined only with at least 15 closes and a positive average loss; then it equals 100·G/(G+L) for the average gain G and average loss L of the last 14 changes, and lies in [0, 100) |
| Indicators.RsiWindowIsRollingWindow | server.py:115-120 | The 14 changes the RSI averages are the last 14 entries of the whole day-over-day change series, which is the window the rolling mean sees at the last bar |
| Indicators.RsIsGainShare | server.py:122-123 | 100 − 100/(1 + G/L) equals 100·G/(G+L) and lies in [0, 100) |
| Indicators.NoLossIffNoFall | server.py:117-120 | The mean loss over a window is zero exactly when no change in it is negative |
| Indicators.NoFallInWindow | server.py:115-117 | Every change in the window is non-negative exactly when the last 15 closes never fall |
| Indicators.RsiUndefinedIffNoLoss | server.py:119-124 | The RSI is undefined exactly when there are at most 14 closes or the last 15 closes never fall |
| Indicators.RsiUsesLastFifteen | server.py:114-124 | Closes before the last 15 never change the RSI |
| Indicators.SnapshotOf | server.py:181-191 | The snapshot holds the last close, the last two volumes, the RSI of all closes, and moving averages whose 5 and 20 multiples are the sums of the last 5 and last 20 closes |
| Indicators.SnapshotIgnoresHistory | server.py:181-191 | Bars before the last 20 never change the close, the averages, the volumes or the RSI |
| Indicators.MovingAveragesWithinRange | server.py:185-186 | Both moving averages lie between any lower and upper bound of the last 20 closes |
| Indicators.Ma20ContainsMa5 | server.py:185-186 | 20 × ma20 equals 5 × ma5 plus the sum of the 15 closes before the last five |
| Classifier.Holds | server.py:197-217 | The four tests. A healthy RSI is defined and neither overheated nor oversold, and a volume surge over a non-negative previous volume is a rise |
| Classifier.Said | server.py:197-223 | Each rule gives at most one reason, and it always gives one when it scores; the reason belongs to that rule, and it is a positive reason exactly when the rule scores |
| Classifier.Point | server.py:197-223 | A rule gives at most one point, and gives it exactly when its test passes |
| Classifier.Points | server.py:193-223 | The score is at most 4; it is 4 exactly when every rule passes and 0 exactly when none does |
| Classifier.Explain | server.py:195-223 | There are between 2 and 4 reasons |
| Classifier.SignalOf | server.py:225-234 | BUY_STRONG exactly when score ≥ 3, WATCH exactly when score = 2, AVOID exactly when score ≤ 1 |
| Classifier.Classify | server.py:193-234 | The accumulated score, reasons and signal are those of the rule-by-rule specification |
| Classifier.ScoreCountsPositiveReasons | server.py:193-223 | The score equals the number of positive reasons, so it never exceeds the number of reasons |
| Classifier.ReasonsInRuleOrder | server.py:195-223 | The reasons come in strictly increasing rule order, so no rule speaks twice |
| Classifier.RulesThatAlwaysSpeak | server.py:197-214 | Rules 1 and 3 always give exactly one reason; rule 2 gives one only when it scores |
| Classifier.ReasonsMatchTests | server.py:197-223 | Each of the eight reasons is listed exactly when its own comparison holds |
| Classifier.QuietMomentum | server.py:216-223 | An undefined RSI, or one in (60, 70] or [30, 45), adds no point and no reason |
| Classifier.SignalMonotone | server.py:225-234 | A higher score never gives a weaker signal |
| Classifier.MoreRulesStrongerSignal | server.py:193-234 | A snapshot that passes every rule another one passes has at least its score and at least its signal |
| Classifier.AllRulesPassExample | server.py:193-234 | Close 103, ma5 102, ma20 100, volume doubled and RSI 50 score 4, in the four positive reasons, and give BUY_STRONG |
| Planner.RoundHalfEven | server.py:237-239 | The result is within one half of its argument; at a tie it is the even neighbour |
| Planner.RoundMonotone | server.py:237-239 | Rounding preserves order |
| Planner.RoundWhole | server.py:237-239 | A whole number rounds to itself |
| Planner.LevelsOf | server.py:236-239 | Each level is within one half of the close times 0.97, 1.05 or 1.07 |
| Planner.LevelsOrdered | server.py:236-239 | For a non-negative close, stop-loss ≤ first target ≤ second target |
| Planner.LevelsBracketClose | server.py:236-239 | A whole-won close lies between the stop-loss and the first target |
| Planner.Budget | server.py:248-249 | Ten budgets make the capital |
| Planner.WholeOfTenths | server.py:253-254 | The result is m/10 truncated toward zero: for m ≥ 0 it is the largest t with 10t ≤ m, and for m < 0 the smallest t with 10t ≥ m |
| Planner.Split | server.py:253-259 | The first tranche is 40% of the shares and the second 30%, each truncated toward zero, and the third is the rest, so the three add up to the share count. Each amount is its tranche times the price, and the amounts add up to the cost of all the shares. For a non-negative share count every tranche is non-negative and the second is the smallest |
| Planner.Buy | server.py:251-259 | The share count is the largest whose cost fits in the budget: its cost is at most the budget and one more share is over it. A non-negative budget buys a non-negative count, and the plan is the split of that count |
| Planner.PlanOf | server.py:241-259 | There is no plan exactly when the capital is missing or the close is not positive. Otherwise the budget is 10% of the capital; the share count is the largest whose cost fits in the budget; the plan is the split of that count at the close, so the tranches add up to it and each amount is its tranche times the close; with a non-negative capital, the first tranche is 40% and the second 30% of the count (truncated), no tranche is negative, and the second is the smallest |
| Planner.FloorQuotientFits | server.py:251 | The floor of budget / close, times the close, fits in the budget, and one more share does not; a non-negative budget buys a non-negative count |
| Planner.SpendWithinTenthOfCapital | server.py:247-259 | There is a plan exactly when there is a capital and a positive close; ten times its total spend is at most the capital |
| Planner.NoCapitalNoPlan | server.py:242-247 | Without a capital, the budget, share and amount fields all stay empty |
| Planner.PlanExample | server.py:247-259 | 10,000,000 won at a close of 50,000 gives a budget of 1,000,000 and 20 shares, split 8, 6 and 6 |
| Pipeline.StatusCode | server.py:132-179 | 500 exactly for a failed download, 404 exactly for empty data, and 400 exactly for a missing symbol, an invalid symbol or a short history |
| Pipeline.Analyze | server.py:128-179 | The response is, in this order of precedence: no_symbol exactly when the stripped symbol is empty; invalid_symbol exactly when the symbol has fewer than six digits; download_failed, carrying the text of the exception, exactly when downloading the code raises; empty_data exactly when no bars come back; insufficient_data exactly when 1 to 19 bars come back. Otherwise it is the report on the downloaded bars |
| Pipeline.ReportOf | server.py:181-259 | The report carries the stripped input, the code used, the capital read and its snapshot. Its score and reasons are those the four rules give that snapshot: the score counts the positive reasons, is at most 4 and picks the signal, and there are 2 to 4 reasons. Its levels and plan are those of its close and capital |
| Pipeline.SymbolFromDigits | server.py:135 | The code depends only on the digits of the symbol, so stripping never changes it |
| Pipeline.CapitalFromCleaned | server.py:29-45 | The capital depends only on the digits and dots of the input |
| Pipeline.CapitalIgnoresWhitespace | server.py:130 | Stripping the capital never changes how it reads |
| Pipeline.NoDownloadForInvalidSymbol | server.py:132-149 | A symbol with fewer than six digits fails the request, whatever the download would return |
| Pipeline.DownloadsOnlyTheCode | server.py:147-160 | Only what the download returns for the normalised code can affect the response |
| Pipeline.CapitalNeverRejects | server.py:144-145 | Whether the request fails, and with which error, never depends on the capital |

## Left out

- `fetch_ohlcv_naver` (server.py:48-111) is not part of this model. It makes network requests and parses HTML. The model takes its outcome as a parameter: bars in ascending date order, or the text of the exception it raised.
- The Flask application is transport only and is left out. This covers CORS, `jsonify`, the health route and `app.run`, the message texts, and the `signal_kor` label. The model keeps the error kind and `StatusCode` keeps the HTTP status.
- The step-by-step `strategy_text` narrative (server.py:261-361) is left out. It is fixed template text chosen by the same rule outcomes that the `Classifier` proves properties of.
- Floating point is left out. This affects:
  - the products `close * 0.97`, `close * 1.05` and `close * 1.07`;
  - the budget `capital * 0.10`;
  - the floor division and the tranche products;
  - the RSI formula;
  - `float()` on digit strings too long for a double. A capital of more than about 309 digits reads as `inf`, so `position_budget // today_close` is `nan` and `int()` of it at server.py:251 raises an uncaught `ValueError`, and the request fails with status 500. The model returns a plan for such a capital instead.

  These are all exact reals and integers here. Python's `round` is modelled as exact round-half-even on the real product.
- Only the RSI at the last bar is modelled. The pandas rolling means at earlier bars are not. An undefined RSI, which the source represents as NaN, is `None`.
- The bars are numbers. Missing values in the downloaded table, which pandas would carry as NaN, are not modelled.
- `Pipeline.Analyze` computes the score, reasons and signal with the specification functions `Points`, `Explain` and `SignalOf`, because a function cannot call a method. `Classifier.Classify` is proved to return exactly those.
