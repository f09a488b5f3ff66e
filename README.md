# vixbuddy statistics core, modelled in Dafny

vixbuddy is a terminal dashboard for the VIX volatility index and brokerage
accounts. This project models its derivation layer:

- `stats.dfy`, module `Stats` (from `src/vixbuddy/stats.py`). It holds the
  `Vix` and `Account` records and their all-zero defaults. It also holds the
  table rows the display layer renders: the three horizon tables of the
  index, the account table, and the colour/label/value cells they are made
  of. The two-decimal format `f"{x:.2f}"` has a concrete definition, `Fmt2`,
  with a reader `Fmt2Value` that reads a rendering back.
- `data.py` becomes module `Data` in `data.dfy`. It has a `Data` class with
  the store's mutable fields: the raw account response, the raw balance
  list, the account dictionary, the index statistics and the per-account
  figures. Its methods route responses by endpoint, file account records,
  and process balances in a loop. Each method is proved against a pure
  function of the old state (`Dispatch`, `AccountsStep`, `BalanceStep`,
  `ApplyBalances`, `BalancesStep`, `DeriveVix`). Lemmas prove properties of
  those functions.
- The source's exceptions are values. Each operation ends in `Done` or in
  `Raised(e)`, where `e` is one of `ValueError`, `NotImplementedError`,
  `KeyError(key)`, `IndexError`, `ZeroDivisionError` or `NonFinite`. Python
  has no rollback, so a balance list that raises part-way keeps the writes
  of the balances before it. The model keeps them too.

Arithmetic is exact, over `real`. The theta targets come from `math.ceil`
and `math.floor`, so they are `int`.

Behaviour of the code that the model keeps as written:
- A balance whose account number is not filed raises `KeyError` and stops
  the balance loop; the balances after it are not processed.
- A zero last price or a flat quote day range raises `ZeroDivisionError`,
  and no index statistics are stored.
- `high_1day` is the latest daily bar's high, while the 1-day rank uses the
  quote's day high and `low_1day` is the quote's day low.
- Ranks are not clamped: a rank is in [0, 100] exactly when the last price
  lies inside its horizon's range.

## Model

| member | source | states |
|---|---|---|
| `Data.Data.constructor` | src/vixbuddy/data.py:21-29 | a new store has no raw account response, no balances, empty dictionaries and no index statistics |
| `Data.Dispatch` | src/vixbuddy/data.py:37-51 | accounts are accepted exactly as a single response, balances exactly as a list; positions and transactions raise NotImplementedError; each other combination raises ValueError |
| `Data.Data.StoreResponse` | src/vixbuddy/data.py:31-51 | stores the payload in the field its route names and runs that route's processing; a rejected payload changes nothing and raises the route's error |
| `Data.DeriveVix` | src/vixbuddy/data.py:60-115 | raises IndexError with fewer than 5 daily bars, ZeroDivisionError for a zero last price or a flat day range, NonFinite for an empty or flat 30m/5m series; otherwise changes are last minus the anchor opens (day 0, day -5, quote open), each change percent times last is the change, highs and lows are the series extremes, ranks use the source's formula, and the closes are kept in order |
| `Data.Data.ProcessVix` | src/vixbuddy/data.py:60-115 | stores the derived statistics; on an exception the previous statistics stay |
| `Data.MaxHigh` | src/vixbuddy/data.py:95-96 | the result bounds every bar's high and equals one of them |
| `Data.MinLow` | src/vixbuddy/data.py:106-108 | the result bounds every bar's low from below and equals one of them |
| `Data.Rank` | src/vixbuddy/data.py:98-104 | the rank times the width of the range is 100 times the distance of the last price from the low |
| `Data.Closes` | src/vixbuddy/data.py:112-114 | the closing prices of a series, one per bar, in order |
| `Data.RankInRange` | src/vixbuddy/data.py:98-104 | on a range with low < high, the rank lies in [0, 100] exactly when low <= last <= high (it is not clamped) |
| `Data.RankRecoversLast` | src/vixbuddy/data.py:98-104 | low + rank/100 * (high - low) gives back the last price |
| `Data.SeriesRange` | src/vixbuddy/data.py:99-103 | on bars whose low never exceeds their high, the lowest low is at most the highest high |
| `Data.DerivedRanksInRange` | src/vixbuddy/data.py:98-104 | on well-formed bars and a proper day range, each derived rank is in [0, 100] exactly when the last price is inside that horizon's range |
| `Data.DerivedOpensRecovered` | src/vixbuddy/data.py:79-86 | each anchor open equals last * (1 - change percent), so the percentages are relative to the last price |
| `Data.DerivedChangeColoursAgree` | src/vixbuddy/data.py:81-86 | with a positive last price, every table shows the absolute and the percent change of a horizon in the same colour |
| `Data.Data.ProcessAccounts` | src/vixbuddy/data.py:117-126 | leaves the dictionary alone when no account response is stored; a balance body raises KeyError("items"); otherwise it files the items in order (loop invariant against InsertAccounts) |
| `Data.InsertAccountsKeys` | src/vixbuddy/data.py:121-126 | the keys after filing are the old keys plus every listed number except "1DA13984"; the placeholder is present afterwards exactly when it was before |
| `Data.InsertAccountsLastWins` | src/vixbuddy/data.py:121-126 | the entry under a number is the last listed item with that number, with no balance attached |
| `Data.InsertAccountsKeepsOthers` | src/vixbuddy/data.py:121-126 | an existing entry whose number is not filed (or is the placeholder) keeps its value |
| `Data.Put` | src/vixbuddy/data.py:123-126 | the placeholder number leaves the dictionary as it was; any other number gets a fresh entry with no balance, and every other entry is kept |
| `Data.InsertAccounts` | src/vixbuddy/data.py:121-126 | filing a list never removes an account |
| `Data.AccountsStep` | src/vixbuddy/data.py:117-126 | no stored response leaves the dictionary alone; a balance body raises KeyError("items") with nothing written; an account list ends normally with exactly the old numbers plus the listed non-placeholder ones, and the placeholder is never added |
| `Data.MaxShortAlloc` | src/vixbuddy/data.py:131-141 | the allocation is always between 0.25 and 0.50 |
| `Data.MaxShortAllocBands` | src/vixbuddy/data.py:131-141 | first match wins: 0.25 exactly for last <= 15, 0.30 for (15, 20], 0.35 for (20, 30], 0.40 for (30, 40], 0.50 above 40 |
| `Data.MaxShortAllocMonotone` | src/vixbuddy/data.py:131-141 | a higher index level never gives a lower allocation |
| `Data.MaxShortAllocBreakpoints` | src/vixbuddy/data.py:131-141 | 15, 20, 30 and 40 belong to the lower band; 15.01, 20.01, 30.01, 40.01 and 100 to the next |
| `Data.Data.ProcessBalances` | src/vixbuddy/data.py:128-143 | changes nothing before index statistics exist; otherwise processes every stored balance in order with the one allocation for the index level, stopping at the first exception (loop invariant against ApplyBalances) |
| `Data.ApplyBalancesKeepsAccounts` | src/vixbuddy/data.py:142-143 | processing balances never adds or removes an account and never changes an account item |
| `Data.ApplyBalancesValid` | src/vixbuddy/data.py:142-143 | figures exist only for known accounts, filed under their own number, with percents summing to 1 and amounts to net liq; processing balances keeps this true |
| `Data.ApplyBalancesLastWins` | src/vixbuddy/data.py:142-143 | after a run without exception, the account a balance names is known; when no later balance names it, the account holds that balance and figures computed from it with the run's allocation |
| `Data.ApplyBalancesUntouched` | src/vixbuddy/data.py:142-143 | an account that no balance in the list names keeps its entry and its figures |
| `Data.ApplyBalancesStopsAtFirstError` | src/vixbuddy/data.py:142-143 | a run that raises has applied exactly the balances before the raising one; that one raised against the state they left |
| `Data.ApplyBalances` | src/vixbuddy/data.py:142-143 | an empty list changes nothing; the only exception processing balances can raise is a KeyError |
| `Data.BalancesStep` | src/vixbuddy/data.py:128-143 | nothing happens before index statistics exist; only KeyError can be raised; the account numbers and items are never changed |
| `Data.Data.ProcessBalance` | src/vixbuddy/data.py:145-165 | follows BalanceStep: attaches the balance and files the figures, or raises KeyError without writing anything |
| `Data.BalanceStep` | src/vixbuddy/data.py:145-165 | succeeds exactly for a balance of a known account; writes only that entry's balances field and only that key of the figures; an exception leaves both dictionaries unchanged |
| `Data.AccountStats` | src/vixbuddy/data.py:152-165 | short-premium percent is the allocation and the two percents sum to 1; the two amounts sum to net liq; the BPR figures are 0.07 and 0.05 of net liq; theta min is the least integer >= 0.001*net liq and theta max the greatest integer <= 0.002*net liq |
| `Data.Ceil` | src/vixbuddy/data.py:163 | the result is the least integer not below its argument |
| `Data.ThetaRangeOrdered` | src/vixbuddy/data.py:163-164 | theta min <= theta max exactly when net liq is 0 or at least 500; every negative net liq gives an inverted range |
| `Data.ThetaRangeInverted` | src/vixbuddy/data.py:163-164 | for 0 < net liq < 500 the range is inverted (min 1, max 0) and not clamped |
| `Data.AccountStatsExample` | src/vixbuddy/data.py:152-165 | net liq 100000 at index level 18 gives 30000 / 70000 / 7000 / 5000 and theta 100..200 |
| `Stats.Fmt2` | src/vixbuddy/stats.py:130 | a two-decimal rendering ends in a point and two digits, and starts with '-' exactly for negative values |
| `Stats.DecimalRoundTrip` | src/vixbuddy/stats.py:130 | the decimal digits of a whole number read back as that number |
| `Stats.RoundHalfEven` | src/vixbuddy/stats.py:130 | the result is within 0.5 of the argument, and a tie goes to the even neighbour |
| `Stats.Cents` | src/vixbuddy/stats.py:130 | the magnitude in hundredths is within half a hundredth |
| `Stats.Fmt2RoundTrip` | src/vixbuddy/stats.py:130 | reading a rendering back gives the rounded hundredths with the value's sign |
| `Stats.Fmt2Accurate` | src/vixbuddy/stats.py:130 | the figure shown is within 0.005 of the value |
| `Stats.Render` | src/vixbuddy/stats.py:129-131 | a literal text is itself; a formatted number is its padding, a two-decimal figure that reads back as the value's rounded hundredths, then its suffix |
| `Stats.Fixed2` | src/vixbuddy/stats.py:44 | a bare `:.2f` text carries the number itself, with no padding and no suffix |
| `Stats.Fixed2Text` | src/vixbuddy/stats.py:44 | a bare `:.2f` text renders as exactly the two-decimal figure, within 0.005 of the number |
| `Stats.ColorChange` | src/vixbuddy/stats.py:118-132 | style "bold red" for negative, "bold green" for positive, "bold white" for zero; right-justified; shows the value itself |
| `Stats.ColorChangeText` | src/vixbuddy/stats.py:119-132 | the first character is '-' for negative values and a space otherwise; the text ends in '%' exactly for percentages; between them stands the two-decimal figure |
| `Stats.ChangeCellsAgree` | src/vixbuddy/stats.py:118-128 | a change and its percent change relative to a positive price are shown in the same colour |
| `Stats.TablesChangeColoursAgree` | src/vixbuddy/stats.py:32-116 | with consistent changes and a positive last price, all three horizon tables colour the two change cells alike |
| `Stats.VixLabel` | src/vixbuddy/stats.py:134-135 | the label text is kept unchanged, style "white", left-justified |
| `Stats.VixValue` | src/vixbuddy/stats.py:137-138 | the value text is kept unchanged, style "deepskyblue", right-justified |
| `Stats.HorizonTable` | src/vixbuddy/stats.py:32-55 | five rows of four cells: rows 0 and 2 are blank; row 1 has the caption, the raw change and the change percent times 100 with "%"; row 3 has open and rank; row 4 has low and high |
| `Stats.From24DayTable` | src/vixbuddy/stats.py:32-55 | five rows in the horizon layout, showing the 24-day figures |
| `Stats.From5DayTable` | src/vixbuddy/stats.py:57-85 | five rows in the horizon layout, showing the 5-day figures |
| `Stats.FromTodayTable` | src/vixbuddy/stats.py:87-116 | six rows: the horizon layout with the 1-day figures, plus a "last" row |
| `Stats.EmptyVixShowsZeroChanges` | src/vixbuddy/stats.py:9-31 | the default record, all zeros, shows its day changes as white " 0.00" and " 0.00%" |
| `Stats.AccountLabel` | src/vixbuddy/stats.py:190-191 | the label text is kept unchanged, style "bold", left-justified |
| `Stats.AccountValue` | src/vixbuddy/stats.py:193-194 | the value text is kept unchanged, style "darkgrey", right-justified |
| `Stats.AccountFigures` | src/vixbuddy/stats.py:159-186 | one figure per row label: net liq, cash or low risk, max short premium, max undefined risk BPR, max defined risk BPR, theta max, theta min, in that order |
| `Stats.AccountTable` | src/vixbuddy/stats.py:155-188 | nine two-cell rows: a blank row; number and nickname; then net liq, cash or low risk, max short premium, max undefined risk, max defined risk, max theta, min theta, each as a label and its two-decimal value |
| `Stats.EmptyAccountShowsZeros` | src/vixbuddy/stats.py:143-153 | the default account, all zeros, shows a blank number and nickname and every figure as "0.00" |

## Left out

- `Data.get_vix` and the `.history(...)` calls are network fetches. Their
  results come in as a `Snapshot` value: the quote, the daily bars and the
  30-minute, 5-minute and 1-minute bars. The `vix` dictionary field, which
  holds the network handle, is not modelled.
- `self.log(...)` calls are callbacks into the UI. They have no effect on
  the model.
- `.json()` decoding and `float(balance["net-liquidating-value"])` parsing
  happen before the model. Responses are decoded datatypes, and a
  non-numeric net liq is not modelled.
- Account items carry only their number and nickname. Other brokerage
  metadata, and a missing "nickname" key, are not modelled.
- `store_response` distinguishes a single `Response` from a `list`.
  Payloads of any other Python type are not modelled.
- IEEE floating point is not modelled: arithmetic is exact over `real`.
  `Fmt2` rounds the exact value half-to-even; Python rounds the binary
  double.
- DeriveVix: the source does not raise for an empty or flat 30-minute or
  5-minute series. pandas/numpy would store NaN or infinity in the record.
  The model returns `NonFinite` instead and keeps the previous statistics,
  because NaN and infinity are not reals. Downstream, when no earlier
  statistics exist, `statsVix` stays empty after such a snapshot, so
  `ProcessBalances` files no figures. The source would store a NaN record
  and still compute figures from its finite `last`.
- Dictionary order is not modelled. Python dicts keep insertion order, and
  Dafny maps are unordered. So the model does not capture the order in
  which balances are later fetched for `accounts` (by `api.py`), or the
  order in which account tables are drawn from `stats_accounts`. It
  captures only which keys and values each dictionary holds.
- `rich.text.Text` is a record of text, style and justification. A
  formatted number in it is kept as padding, value and suffix, and `Render`
  gives the string. Styles are the source's style strings and are not
  interpreted.
- src/vixbuddy/api.py is not part of this model: HTTP, session pickle
  files, environment variables and `exit(1)`.
- src/vixbuddy.py is not part of this model: Textual widgets, CSS and async
  startup.
- src/vixbuddy/ui.py, src/vixbuddy/account_streamer.py,
  src/vixbuddy/logger.py and src/vixbuddy/pyfinance_examples.py are not
  part of this model: printing, a websocket loop, log files and a plotting
  script.
