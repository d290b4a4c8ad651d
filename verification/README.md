# Stock dashboard core, modelled in Dafny

This project models the decision core of a Python stock dashboard that has a
Streamlit front end and a small Flask page. The model leaves out the HTTP calls, caching and
rendering. It keeps the pure logic they surround:

- **Ticker normalisation** (`Tickers`): user input such as `" 00700.hk"` becomes the
  Yahoo form `0700.HK` or the Finnhub form `0700-HK`. It works through `Text`, a small
  model of the Python `str` methods involved: `strip`, `upper`, `replace`, `lstrip`,
  `zfill`, `isdigit`, `split` and `join`.
- **Indicator engine**, over exact reals (`Series`, `Rsi`, `Macd`, `Bands`, `Stochastic`):
  - the three RSI variants of the repository, each with its own zero-loss behaviour;
  - MACD as a recursive EMA, with α = 2/(span+1) and seeded by the first close;
  - support and resistance;
  - Bollinger bands;
  - the row-wise RSV/KDJ and Stochastic %K/%D columns.
- **Decision tables**:
  - the three-horizon investment advice and its failure sentinel (`Advice`);
  - the 0-100 trending score and the candidate pool (`Scoring`);
  - the Flask buy/sell/hold rule, price targets, explanation line and first-match
    recommendation search (`FlaskApp`);
  - the sentiment threshold and the period table (`DataService`);
  - the page labels, curve, icons, quote arithmetic and overlay rules (`PageTechnical`,
    `PageTrending`, `PageRealtime`).
- **List selection** (`Recency`, `DataService`): news filtering, the stable newest-first
  sort with truncation to ten, the Finnhub → yfinance → Google fallback chain, and the
  field defaults of `get_stock_info`.

Every provider reply enters as a parameter: an `Option` that is `None` where the
request fails, or a `Reply` that tells a raised request from a refused one where the
source does. The field maps are `map<string, Value>`, where `Value` is a number,
a string or JSON null. Prices are Dafny `real`s. The floating-point behaviour the source
visibly depends on is written out: a division by zero reads as ±inf or NaN in the
momentum score, and 0/0 is NaN in the stock_utils RSI. `wrappers.dfy` holds the `Option` and `Reply` types.

## Model

| member | source | states |
|---|---|---|
| Tickers.ProcessHk | utils.py:9-30 | Non-digit input comes back stripped and upper-cased, with every ".HK" removed when it ended with one. A digit code becomes a canonical code of at least four digits plus ".HK", and the number it denotes is kept. |
| Tickers.ProcessFinnhub | utils.py:32-47 | Same cleaning as ProcessHk. An all-zero code still gives "0000.HK". A nonzero digit code gets a canonical code plus "-HK", with its number kept. |
| Tickers.NormaliseDigits | utils.py:23-30 | On a digit string: the code keeps its number, is canonical, ends with the suffix, and is "0000.HK" exactly when the number is 0. |
| Tickers.NormaliseNonzero | utils.py:28-30 | Padding a zero-stripped code to four digits is canonical, keeps its number, and is never the all-zero code. |
| Tickers.ProcessHkIdempotentOnCodes | utils.py:9-30 | Normalising a normalised digit code changes nothing ("0700.HK" stays "0700.HK"). |
| Tickers.RemoveTrailingSuffix | utils.py:14-15 | Removing every ".HK" from a string whose only '.' is the final ".HK" leaves the text before it. |
| Text.ZFill | utils.py:28 | Pads with zeros on the left up to the width, never truncates, and keeps the digits as the tail. |
| Text.LStripZeros | utils.py:23 | Removes exactly the leading zeros: what is removed is all '0', and the result does not start with '0'. |
| Text.Strip | utils.py:11 | Neither end of the result is whitespace. |
| Text.StripStretch | utils.py:11 | The result is the stretch of the input after its leading whitespace, and only whitespace follows it. |
| Text.StripEmpty | utils.py:11 | The result is empty exactly when the input is all whitespace. |
| Text.ToUpper | utils.py:11 | Each character upper-cased: no lower-case letter remains, ASCII stays ASCII, and upper-casing again changes nothing. |
| Text.RemoveAll | utils.py:15 | Removes exactly count(pat) copies of the pattern, so the length drops by that many pattern lengths, and a string that does not contain the pattern is returned unchanged. |
| Text.NumberOfLeadingZeros | utils.py:23 | Leading zeros do not change the number a digit string denotes. |
| Text.SplitJoin | app.py:144 | Splitting a one-character join recovers the parts when no part contains the separator. |
| Series.RangeSumBounds | utils.py:54-55 | A window whose entries lie in [a, b] sums to between n·a and n·b. |
| Series.GainsMinusLosses | indicators.py:5-7 | Over any window, the summed gains minus the summed losses are the summed deltas. |
| Series.Telescope | utils.py:53 | The deltas of a window telescope to the last close minus the close before the window. |
| Series.DeltasDetermine | indicators.py:5-7 | The diffs lose nothing but the first close: two series with the same first close and the same deltas are the same series. |
| Rsi.UtilsRsi | utils.py:50-60 | Exactly 50 below `period` closes. Otherwise 100 exactly when the last window holds no drop. Always in [0, 100]. |
| Rsi.UtilsRsiValue | utils.py:56-59 | Past both guards, the value is 100 − 100/(1 + avgGain/avgLoss), with avgLoss > 0. |
| Rsi.UtilsRsiIsUpShare | utils.py:53-59 | With a loss in the window, the RSI is the percentage of the window's movement that was upward. |
| Rsi.UtilsRsiTracksNetMove | utils.py:53-59 | With a loss in the window, the RSI is above 50 exactly when the last close is above the close before the window, and is 50 exactly when they are equal. |
| Rsi.FormulaBounds | utils.py:59 | The formula lies in [0, 100) for a nonnegative gain and a positive loss. |
| Rsi.FormulaMonotone | utils.py:58-59 | The formula does not decrease as the gain/loss ratio grows. |
| Rsi.IndicatorsRsi | indicators.py:4-14 | One entry per close. Undefined exactly for the first period−1 rows. Every defined value is in [0, 100). |
| Rsi.StockRsi | stock_utils.py:9-15 | Undefined before row 14. Otherwise NaN (None) exactly on a window with neither rises nor drops, and 100 exactly on rises with no drops. Every value is in [0, 100]. |
| Rsi.ConstantSeriesDisagreement | utils.py:56-57 | On a constant series of at least 14 closes, utils.py reads 100, indicators.py reads 0 on every complete row, and stock_utils.py is NaN there. |
| Rsi.VariantsAgreeWithLoss | indicators.py:12 | When the last window has a loss, stock_utils.py agrees with utils.py, and the epsilon variant never reads higher. |
| Rsi.EpsilonLowers | indicators.py:12 | Adding 1e-10 to the loss never raises the RSI. |
| Rsi.AvgSigns | utils.py:54-55 | The averages are nonnegative. Average loss is 0 exactly when no close in the window drops, and average gain is 0 exactly when none rises. |
| Macd.Alpha | utils.py:65-66 | The smoothing factor 2/(span+1) lies in (0, 1]. |
| Macd.EmaAt | utils.py:65-66 | The first row is the first input. For a factor in (0, 1], every row lies between the min and max of the inputs up to that row. |
| Macd.MacdLine | utils.py:65-67 | One value per close: the 12-span EMA minus the 26-span EMA on each row, 0 on the first row. |
| Macd.SignalLine | utils.py:68 | One value per close: the 9-span EMA of the MACD line on each row, 0 on the first row. |
| Macd.UtilsMacd | utils.py:62-69 | (0, 0) below 26 closes. From 26 closes on, the pair is the last row of the MACD and signal lines of indicators.py (utils.py:69 returns `iloc[-1]` of both). Both values are bounded by the spread of the closes. |
| Macd.IndicatorsMacd | indicators.py:16-21 | Both series have one value per close, start at 0, and stay within ± the spread of the closes. |
| Macd.Histogram | stock_utils.py:2-6 | The histogram is positive on a row exactly when MACD is above its signal there. |
| Macd.EmaWithin | utils.py:65-66 | An EMA never leaves a band that holds all its inputs. |
| Macd.EmaShift | utils.py:65-66 | Adding a constant to every input adds it to every EMA value. |
| Macd.MacdBounded | utils.py:67-68 | Every value of the MACD and signal lines lies within ± the spread of the closes. |
| Macd.MacdShiftInvariant | utils.py:62-69 | Moving every close by the same amount changes neither line nor the utils.py pair. |
| Macd.ConstantSeriesMacdZero | utils.py:62-69 | A constant series gives MACD, signal and histogram 0 on every row, and (0, 0) from utils.py. |
| Bands.SupportResistance | utils.py:80-85 | With 20 or more closes: the min and max of the last 20, both attained. With 1-19: (0.95·last, 1.05·last). With none: (0, 0). |
| Bands.BollingerBands | utils.py:71-78 | Empty below 20 closes. Otherwise the middle is the 20-row mean, and upper − middle = middle − lower = 2·std. |
| Bands.BandsOrdered | utils.py:76-77 | With a nonnegative root the bands are ordered lower ≤ middle ≤ upper on every complete row. |
| Bands.ConstantWindowCollapses | utils.py:71-78 | Over a constant series the three bands coincide at the constant. |
| Stochastic.RsvAt | stock_utils.py:18-20 | Undefined before the window is complete or on a zero range. For a bar with low ≤ close ≤ high it is in [0, 100], 100 exactly at the highest high, and 0 exactly at the lowest low. |
| Stochastic.Rsv | stock_utils.py:18-20 | One value per row, undefined before the window is complete, and in [0, 100] on every well-formed bar. |
| Stochastic.KdjRsv | stock_utils.py:18-20 | The 9-row RSV column, in [0, 100] on well-formed bars. |
| Stochastic.StochK | stock_utils.py:26-28 | The 14-row %K column, undefined before row 14, in [0, 100] on well-formed bars. |
| Stochastic.StochDAt | stock_utils.py:29 | Defined exactly when the row and the two before it are, and then between their minimum and maximum. |
| Stochastic.StochD | stock_utils.py:29 | One value per row, undefined on the first two rows, and defined exactly where the row and the two before it have a %K value. |
| Stochastic.JLine | stock_utils.py:21-23 | Defined exactly where K and D are. J − D = 3·(K − D), so K is recovered as (J + 2D)/3, J equals K exactly when K = D and exceeds K exactly when K > D, and J lies in [−200, 300] when K and D lie in [0, 100]. |
| Stochastic.StochasticBounded | stock_utils.py:26-29 | On well-formed bars every defined %D value lies in [0, 100]. |
| Advice.MovingAverage | analysis_service.py:23-25 | The current price below `w` rows. Otherwise a value between the min and max of the last `w` closes. |
| Advice.ReadingsOf | analysis_service.py:19-31 | The readings are the utils RSI over 14 rows, the utils MACD and signal, the utils support and resistance, and the 20- and 60-row moving averages of the closes. So the RSI is in [0, 100], MACD and signal lie within ± the spread of the closes, and support ≤ resistance for a non-negative last close. Each average is the current price when there are too few rows, and otherwise lies between the min and max of its window. |
| Advice.ShortTerm | analysis_service.py:41-49 | Buy exactly below RSI 30 with [0.98, 1.02]·support. Caution exactly above 70 with [0.95·support, support]. Neutral on [30, 70] with [support, resistance]. |
| Advice.MediumTerm | analysis_service.py:54-62 | Bullish exactly on MACD > signal with positive sentiment, with [0.98, 1.05]·MA20. Cautious exactly on MACD < signal with negative sentiment, with [0.95·MA20, MA20]. Otherwise neutral with [support, resistance]. |
| Advice.LongTerm | analysis_service.py:67-75 | Bullish exactly when price > MA60, PE < 25 and PB < 3, with [0.95, 1.10]·MA60. Cautious exactly when price < MA60, PE > 30 and PB > 5, with [0.85, 0.95]·MA60. Otherwise [0.90, 1.05]·MA60. |
| Advice.Analyse | analysis_service.py:38-86 | The short term is decided on the RSI, support and resistance, the medium term on MACD, signal, sentiment, MA20, support and resistance, and the long term on the price, MA60, P/E and P/B. The triple is never the failure sentinel. |
| Advice.InvestmentAdvice | analysis_service.py:11-94 | The sentinel triple with zero ranges comes back exactly when some step cannot be computed: no Close column, a price, P/E or P/B that is present but not a number, or a non-empty string dividend yield, which survives the scaling at line 36 and then fails to format. Otherwise, end to end: short-term buy exactly when the 14-row RSI of the closes is below 30 and caution exactly when it is above 70; medium-term bullish exactly when MACD is above its signal and the sentiment is positive, caution exactly when below and negative; long-term bullish exactly when the price is above MA60 with P/E < 25 and P/B < 3, caution exactly when below with P/E > 30 and P/B > 5, a missing price, P/E or P/B reading as 0. |
| Advice.RangesOrdered | analysis_service.py:41-75 | Each horizon's range has low ≤ high when support ≤ resistance and the averages are nonnegative. |
| Advice.ShortHistoryMediumNeutral | analysis_service.py:54-62 | Below 26 closes MACD = signal = 0, so the medium term is neutral whatever the sentiment. |
| Advice.ShortHistoryLongNeutral | analysis_service.py:25 | Below 60 closes MA60 is the price, so the long term is neutral with [0.90, 1.05]·price. |
| Advice.MissingValuationLooksCheap | analysis_service.py:34-35 | Missing PE and PB default to 0, so a price above MA60 alone gives the bullish long-term verdict. |
| Scoring.Clamp | analysis_service.py:175 | The result is in [0, 100], and equals the input when that already lies in [0, 100]. |
| Scoring.RsiScore | analysis_service.py:152-157 | 100 at or below RSI 30, 0 at or above 70, and on the line through both in between, so it is continuous at both ends. |
| Scoring.RsiScoreAntitone | analysis_service.py:152-157 | A higher RSI never scores more. |
| Scoring.MacdScore | analysis_service.py:161-162 | 50 + 10·MACD within ±5, and saturates at 0 and 100 outside. |
| Scoring.SentimentScore | analysis_service.py:166 | 100, 50 or 0, in the order of the sentiment rank. |
| Scoring.MomentumScore | analysis_service.py:170-171 | In [0, 100]. With a zero close 20 rows back, 100 exactly when the last close is positive, else 0. Otherwise the clamped 50 + 2·return of the monthly return (last / old − 1)·100, which is above 50 only on a rise and below 50 only on a fall when the old close is positive. |
| Scoring.MomentumOfReturn | analysis_service.py:171 | In [0, 100], and exactly 50 + 2·r for a return r in [−25, 25]. |
| Scoring.MomentumMonotone | analysis_service.py:170-171 | With everything but the last close fixed, a higher last close never lowers the momentum score when the old close is positive, and never raises it when the old close is negative. |
| Scoring.Score | analysis_service.py:149-175 | 0.3·RSI part + 0.3·MACD part + 0.2·sentiment part + 0.2·momentum, always in [0, 100], so the final clamp never bites. |
| Scoring.ScoreMonotone | analysis_service.py:149-175 | The total does not decrease in MACD, sentiment and monthly return, and does not increase in RSI. |
| Scoring.CandidateScore | analysis_service.py:140-175 | The score of one candidate from its closes and sentiment: 0.3·RSI part + 0.3·MACD part + 0.2·sentiment part + 0.2·momentum part, in [0, 100]. |
| Scoring.CandidateScoreMood | analysis_service.py:166-167 | With the same closes, a positive sentiment scores exactly 10 more than a neutral one, and a neutral one 10 more than a negative one. |
| Scoring.CandidateScoreNotMonotone | analysis_service.py:140-175 | The score is not monotone in the last close, even when the close 20 rows back is positive: twenty closes of 1.0 score less than the same closes ending at 0.99, because the lower close also lowers the RSI, whose part outweighs the lost momentum. |
| Scoring.CommonStocks | analysis_service.py:107-109 | A symbol is in the result exactly when some listing with that symbol is a common stock not ending in '.'. |
| Scoring.CommonStocksAppend | analysis_service.py:107-109 | Filtering keeps list order: the filter of a + b is the filter of a followed by the filter of b. |
| Scoring.CandidatePool | analysis_service.py:99-118 | None (the outer handler) exactly when the list request raises. The fixed 50-ticker pool when the reply is not 200. Otherwise at most 100 symbols, each from an eligible listing, and all of them when there are at most 100. |
| Scoring.PoolIgnoresTail | analysis_service.py:107-110 | Once 100 eligible symbols have been seen, the rest of the list does not change the pool. |
| Scoring.Evaluate | analysis_service.py:128-175 | A candidate yields a row exactly when its info is non-empty, has a current price and comes with at least 20 closes. The row carries its ticker and a score in [0, 100]. |
| Scoring.ScoredRows | analysis_service.py:131-138 | Every scored row belongs to a fetched candidate that qualified, and its score is in [0, 100]. |
| Scoring.ScoredComplete | analysis_service.py:131-138 | Every qualifying candidate gets a row. |
| Scoring.EvaluateCandidates | analysis_service.py:124-138 | The loop yields exactly the reference list of qualifying rows, in pool order, with at most one row per candidate. |
| FlaskApp.Round2 | app.py:108-109 | Within half a cent of the input, and a whole number of cents. |
| FlaskApp.Round2Monotone | app.py:146-147 | Rounding to cents never reverses the order of two amounts. |
| FlaskApp.Round2Idempotent | app.py:146-147 | Rounding a rounded amount changes nothing. |
| FlaskApp.Suggest | app.py:138-142 | Buy exactly on present MACD above signal with a truthy RSI below 70. Sell exactly on a truthy RSI above 80. Hold otherwise, and always when the RSI is 0 or missing. |
| FlaskApp.GapHolds | app.py:138-142 | A bullish MACD with an RSI in [70, 80] holds. |
| FlaskApp.BuyTarget | app.py:146 | "-" exactly when the price reply has no "current". A server error exactly when "current" is null, since round() of None raises. Otherwise whole cents within half a cent of 0.98·current. |
| FlaskApp.SellTarget | app.py:147 | "-" exactly when the price reply has no "current". A server error exactly when "current" is null. Otherwise whole cents within half a cent of 1.05·current. |
| FlaskApp.TargetsOrdered | app.py:146-147 | For a nonnegative price the buy target never exceeds the sell target. |
| FlaskApp.LogicParts | app.py:131-137 | The MACD, RSI and KDJ parts appear exactly when their data is present (truthy for RSI), carry that data, and come in that order. |
| FlaskApp.LogicLine | app.py:144 | The empty string for no parts. When no rendered part contains "；", the joined line splits back into exactly the rendered parts. |
| FlaskApp.FindRecommendation | app.py:97-112 | Not found (None) exactly when no candidate hits, after probing all seven. Otherwise it stops at the first hit, and every earlier candidate missed. There it is a server error exactly when the hit's "current" is null, and otherwise the recommendation for that candidate. |
| FlaskApp.RecommendationFor | app.py:106-111 | The recommendation carries the symbol and price, and the buy and sell prices are 0.98 and 1.05 times the price, rounded to cents. |
| DataService.PeriodDays | data_service.py:85-96 | 1, 5, 30, 90 or 365 days for the five named periods, and 1825 exactly for any other period. |
| DataService.PeriodDaysIncreasing | data_service.py:85-96 | The named periods look back strictly more days in list order. |
| DataService.Classify | data_service.py:277 | Positive exactly above 0.6, negative exactly below 0.4, neutral on [0.4, 0.6]. |
| DataService.SentimentOf | data_service.py:269-280 | A failed request or a missing bullish percentage gives neutral. Otherwise the classification of the percentage. |
| DataService.ClassifyMonotone | data_service.py:277 | A more bullish percentage never gives a less positive sentiment. |
| DataService.WithQuote | data_service.py:48-53 | The five price fields come from the quote's c/pc/h/l/v (0 when absent). Every other profile field is unchanged. |
| DataService.StockInfo | data_service.py:18-64 | yfinance's info when it is non-empty with a current price. An empty map exactly when that fails and the profile is not used: its request raises, it is refused, or it is empty, or the quote request raises (the outer handler). Otherwise the profile with the five quote fields from a 200 quote reply (kept from the profile on any other status), and longName set to the normalised ticker only when "name" is absent. |
| DataService.StockInfoPriced | data_service.py:28-51 | The info has a current price exactly when yfinance's is used, or when the profile is used and either the quote answered or the profile has one. |
| DataService.ProfileInfo | data_service.py:43-58 | The non-empty profile with the quote fields applied when the quote answered, and every field outside the quote fields and longName unchanged. |
| DataService.Named | data_service.py:56-57 | longName is added with the given name exactly when "name" is absent. Otherwise the info is unchanged. |
| DataService.UsableItems | data_service.py:165 | An item is kept exactly when it has a non-empty headline and url, and the result keeps list order. |
| DataService.FinnhubEntry | data_service.py:170-183 | The entry keeps the item's timestamp (in seconds), headline and url. The source is the item's, or "Unknown" when absent. |
| DataService.FinnhubNews | data_service.py:162-183 | At most ten entries, newest first, each the entry of a distinct usable item (as a multiset, the entries of a sub-multiset of the usable items). Each has a non-empty title and link, and no usable item left out is newer than one kept. Among entries with equal timestamps, the ones kept are the first in the list, in list order, as the stable sort at line 168 gives. |
| DataService.YahooEntry | data_service.py:204-217 | A timestamp exactly when the publish time is present and nonzero, otherwise "未知时间". The title and link are the item's, or "" when absent. The publisher is the item's, or "未知来源" when absent. |
| DataService.YahooNews | data_service.py:199-218 | The ten newest items, newest first, each the entry of a distinct item (a sub-multiset of the entries). No item left out is newer than one kept. Among entries with equal timestamps, the ones kept are the first in the list, in list order, as the stable sort at line 201 gives. |
| DataService.RssEntry | data_service.py:246-249 | Each present title, link, date and source is copied. Missing ones become "无标题", "#", "未知时间" and "未知来源". |
| DataService.RssNews | data_service.py:243-256 | The first ten feed items, in feed order. |
| DataService.FinnhubAttempt | data_service.py:139-188 | The Finnhub block never fails after appending. Its check fires exactly on a 200 reply, and then its list is the Finnhub news. |
| DataService.YahooAttempt | data_service.py:190-223 | Nothing is appended when there is no news. Otherwise the block appends a prefix of the yfinance news: all of it, with the check firing, exactly when every publish time formats, and otherwise up to the first entry whose time does not format. |
| DataService.RssAttempt | data_service.py:225-262 | The Google block never fails after appending. Its check fires exactly on a 200 feed, and then its list is the feed news. |
| DataService.GetNews | data_service.py:137-265 | The result is empty, or the entries appended so far when a provider's check fires. It is empty when no check fires. |
| DataService.FallbackIsFirstNonEmpty | data_service.py:186-188 | When no block fails after appending, the result is the first non-empty provider list, or [] when all are empty. |
| DataService.NewsFromFirstProvider | data_service.py:137-265 | When every yfinance publish time formats, get_news returns the first non-empty provider list, of at most ten entries. |
| DataService.PartialYahooMixes | data_service.py:204-220 | When Finnhub gives nothing and yfinance fails after appending, the Google entries are added after the partial yfinance entries, and the result is not empty. |
| Recency.SortNewestFirst | data_service.py:168 | A permutation of the input that is descending by key. |
| Recency.SortStable | data_service.py:168 | Items with equal keys keep their original relative order, as in Python's stable sort. |
| Recency.Newest | data_service.py:168 | min(n, length) items, descending, drawn from the input. No item left out is newer than one kept, and for every key the kept items with that key are the first ones of the input with that key, in input order. |
| Recency.InsertSorted | data_service.py:168 | Inserting into a descending list keeps it descending. |
| Recency.MapKeepsTies | data_service.py:168 | Mapping the kept items and the input by a function that keeps the key preserves the key-by-key prefix property of a stable cut. |
| PageTechnical.RsiLabel | page_technical.py:22 | "超卖" exactly below 30, "超买" exactly above 70, "正常" on [30, 70]. |
| PageTechnical.MacdLabel | page_technical.py:23 | "看涨" exactly when MACD > signal, "看跌" otherwise. |
| PageTechnical.RsiCurve | page_technical.py:35-44 | Empty below 14 rows, otherwise len − 14 points. The point for row i is the RSI of closes 0..i−1, in [0, 100]. |
| PageTechnical.RsiCurveUsesPastOnly | page_technical.py:38-39 | A drawn point depends only on the closes before its row. |
| PageTechnical.CurveLagsOneRow | page_technical.py:38-39 | On 14 flat closes then a crash to 0, the drawn point reads 100 while that date's RSI is below 100. |
| PageTechnical.RsiCurveAligned | page_technical.py:35-44 | Same length and bounds. The point for row i includes close i, and the last point equals the RSI metric. |
| PageTechnical.TechnicalPage | page_technical.py:8-44 | The error (None) exactly on an empty history or empty info. Otherwise the metrics are the utils RSI, the utils MACD and signal, and the utils support and resistance of the closes, with labels consistent with the values and support ≤ resistance (unless the last close is negative). The curve is the one drawn: len − 14 points, the point at row i the RSI of closes 0..i−1, so the last point is the RSI without the last close. |
| PageTechnical.TechnicalPageCorrected | page_technical.py:8-44 | The same metrics with the corrected curve of the finding below: the point at row i is the RSI of closes 0..i, so the last point is the RSI metric. |
| PageTechnical.AlignedIsShifted | page_technical.py:38-39 | Each corrected point is the drawn point of the next date. |
| PageTrending.AdviceIcon | page_trending.py:24-34 | 🚀 exactly when "强烈买入" occurs. Otherwise 👍 on "买入", then 👀 on "观望", then ⚠️ on "谨慎", else 👎. |
| PageTrending.StrongBuyIsBuy | page_trending.py:25-28 | Text containing "强烈买入" also contains "买入", so the order of the tests matters. |
| PageTrending.DisplayRoundTrip | page_trending.py:37 | Removing the icon and its space from a shown cell gives back the advice text. |
| PageTrending.DisplayInjective | page_trending.py:37 | Different advice texts are shown differently. |
| PageRealtime.QuoteChange | page_realtime.py:28-31 | (0, 0) when the previous close is missing or 0. Otherwise change = current − prev and percent·prev = 100·change, with the sign of the change when prev > 0. |
| PageRealtime.QuoteChangeRecovers | page_realtime.py:30-31 | prev + change and prev·(1 + percent/100) both recover the current price. |
| PageRealtime.PriceShown | page_realtime.py:36 | "N/A" exactly when the price is 0, and otherwise the price itself. |
| PageRealtime.DeltaShown | page_realtime.py:37 | "N/A" exactly when the (defaulted) previous close is 0, otherwise the change and percent. |
| PageRealtime.Header | page_realtime.py:12-37 | Renders exactly on a non-empty info with a numeric current price and a previous close that is numeric or absent. A string or null previous close makes line 30 raise. The price shown is the current price, "N/A" exactly at 0. A missing previous close shows no change. A present previous close shows the change and percentage against it, or "N/A" when it is 0. |
| PageRealtime.Overlays | page_realtime.py:84-101 | MA5 exactly from 5 rows, MA20 and Bollinger exactly from 20 rows. |
| PageRealtime.OverlaysGrow | page_realtime.py:84-101 | More history never removes an overlay. |
| PageRealtime.VolumeColour | page_realtime.py:159 | Green exactly when close > open. |
| PageRealtime.Hex | page_realtime.py:159 | A "#" and six hex digits. |
| PageRealtime.HexDistinct | page_realtime.py:159 | Green and red bars get different codes. |

## Left out

- HTTP fetching (yfinance, Finnhub, FMP, Google RSS), JSON/XML parsing and timeouts. Each reply is a parameter. Where the source treats a raised request differently from a refused one, the reply is a three-way `Reply`: raised, refused (a status other than 200) or answered. This applies to the profile and quote requests of `get_stock_info` and the listing request of `get_trending_stocks`. Elsewhere in data_service.py a handler turns a raise into the same fallback as a refusal, and an `Option` reply is `None` for both.
- A raised request in app.py. That file has no handler, so a raised request (or a `.json()` failure) ends the Flask page with a server error. The model covers the replies that arrive, and the crashes those replies cause (a null price; see FlaskApp.BuyTarget and FlaskApp.FindRecommendation).
- Streamlit caching, session state, progress bars, layout and plotly figures, and Flask routing and templates. These are I/O, and they do not change the values computed.
- The random API-key choice in app.py:22-23. Which key is used does not affect any decision.
- Timestamp and strftime formatting, and logging. A news date is kept as its Unix seconds. Only whether a yfinance publish time can be formatted at all is modelled, as the `formattable` parameter of DataService.YahooAttempt.
- The detail lines appended to each advice headline (analysis_service.py:78-80), and the currency field. These are formatting only.
- `get_historical_data` apart from its period table (data_service.py:85-96). The rest is fetching and DataFrame construction.
- The name lookup the Google news query uses (data_service.py:230-235). The feed reply is a parameter, so the query text does not matter.
- The part of `get_trending_stocks` after line 181 (ranking and advice columns), including the body of its outer exception handler. That part of the file is not available.
- Tickers.ProcessHk: requires ASCII input. Python's `upper`, `strip` and `isdigit` are Unicode-aware, and only ASCII is modelled.
- Tickers.ProcessFinnhub: requires ASCII input, for the same reason.
- DataService.StockInfo: requires an ASCII ticker, because it normalises the ticker with ProcessHk.
- FlaskApp.Round2: models `round(x, 2)` as exact round-half-even on reals. Binary floating-point representation of the product is not modelled.
- Bands.BollingerBands: the square root is a parameter. Only its nonnegativity is assumed where the ordering lemma needs it.
- Stochastic.JLine: takes the smoothed K and D columns as given. pandas `ewm(com=2)` with adjust=True is not modelled, so the model does not derive that K and D stay in [0, 100]. The J bound is stated under that premise.
- Rsi.IndicatorsRsi: the 1e-10 epsilon is an exact real. NaN and infinity are modelled only where the source's result depends on them (the stock_utils RSI, and the momentum divisor in Scoring.MomentumScore).
- FlaskApp.Suggest: MACD fields are numbers. A present MACD answer whose fields are null would make the source raise a TypeError, and that is not modelled.
- FlaskApp.FindRecommendation: the same holds for each candidate's MACD comparison at app.py:105, and a raised request while probing is not modelled either. Only the null-price crash at the rounding (app.py:108-109) is.
- DataService.FinnhubEntry: keeps the Finnhub timestamp in seconds. The source formats it inside its own handler (data_service.py:173-176) and shows "未知时间" when that fails. No decision depends on the text, so the fallback is not modelled.
- Scoring.CandidatePool: a raised listing request gives None, which stands for the outer handler of `get_trending_stocks`. That handler's body is not available, so what it returns is not modelled.
- Scoring.EvaluateCandidates: the handler of the per-candidate `try` (analysis_service.py:128) lies beyond line 181, which is not available. The model assumes that handler moves on to the next candidate, and it folds any exception raised inside one candidate's block into that candidate's fetched data. The sentiment and closes of each ticker are inputs.
- PageRealtime.Header: the day-high, day-low and volume metrics only format their fields, and are not modelled.

## Findings

| source | as written | input that shows it | evidently intended | confidence | as-written member | corrected member |
|---|---|---|---|---|---|---|
| page_technical.py:38-39 | The point plotted at date i is `calculate_rsi(Close.iloc[:i])`, which leaves out close i. The curve lags one row, and the RSI of the last date is never drawn. | Fourteen closes of 1.0 followed by 0.0: the single plotted point reads 100, while the RSI of that date (and the metric above the chart) is below 100. | The point at date i is the RSI of closes 0..i (`iloc[:i+1]`), so the last point equals the RSI metric. | medium, not executed | PageTechnical.RsiCurve (counterexample: PageTechnical.CurveLagsOneRow) | PageTechnical.RsiCurveAligned (used by PageTechnical.TechnicalPageCorrected) |
