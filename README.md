# TradeFlow journal core in Dafny

TradeFlow is a single-page trading journal. Its logic works over one
in-memory list of logged trades and runs in five places:

- the trade cache that the provider shares with every page;
- the dashboard's statistics cards and recent-activity table;
- the pattern-analysis engine. It groups the decided trades by hour, pair,
  strategy and direction, derives win-rates, and ranks the groups into
  "sweet spots" and "danger zones";
- the strategy page's single-row editor, which autosaves after edits;
- the trade form, with its default date, edit-mode prefill and submit
  routing.

This project models those five parts and proves what they promise.

- `journal.dfy` (`Journal`): the trade record. Text columns use `""` for
  absent; numeric columns and the chart link are `Option`s. Also the loosely
  typed field values the form edits.
- `patterns.dfy` (`PatternAnalysis`): the single pass, written as a loop
  whose body mirrors the page's callback. It is proved equal to a reference
  definition built from the trades themselves (`Tally`, `Keys`,
  `Category`). Win-rate, anomaly selection and ranking, and the breakdown
  are pure functions.
- `trade_cache.dfy` (`TradeContext`): the cache as a class, with fetch, add,
  update and delete. The store's reply is a parameter. The requests issued
  go into a ghost log.
- `dashboard.dfy` (`Dashboard`): counts, win-rate, net P&L and the first
  five trades.
- `strategy.dfy` (`StrategyEditor`): the editor as a class. The debounce
  timer is reduced to the one save it may have pending.
- `trade_form.dfy` (`TradeForm`): date formatting with a parse-back round
  trip, and the prefill record. The form is a class whose submit goes
  through a `TradeContext.TradeCache`.

The hour key is the raw text before the first colon with ":00" appended. It
is neither parsed nor zero-padded, so "9:30" falls in bucket "9:00" and
"09:30" in bucket "09:00" (`PatternAnalysis.HourKey`).

Dictionaries are modelled as sequences of buckets in key-insertion order.
This is the order in which the page enumerates an object's entries.
The dictionaries are plain object literals, so a lookup also finds the
properties every object inherits ("constructor", "toString", "__proto__"
and so on). For such a key, no bucket is created and the increments land
on the inherited property. A pair, strategy or direction with such a name
therefore enters no bucket of its dimension (`PatternAnalysis.KeyOf`,
`PatternAnalysis.UpdateStat`). Hour keys always hold a colon, so they are
never affected.

## Model

| member | source | states |
|---|---|---|
| PatternAnalysis.TextBeforeColon | src/pages/PatternAnalysis.jsx:51 | The first piece of the split is a prefix of the time, holds no colon, and is followed by a colon unless it is the whole text |
| PatternAnalysis.HourKey | src/pages/PatternAnalysis.jsx:51-52 | The hour key is the raw text before the first colon followed by ":00", without parsing or padding |
| PatternAnalysis.HourKeyNotInherited | src/pages/PatternAnalysis.jsx:51-52 | No hour key is the name of an inherited object property |
| PatternAnalysis.KeyOf | src/pages/PatternAnalysis.jsx:49-62 | A trade has a key in a dimension iff its field is non-empty and, for pair, strategy and direction, not an inherited property name; a key is never inherited |
| PatternAnalysis.Add | src/pages/PatternAnalysis.jsx:43-46 | One trade raises total by one, wins by one iff it is a Win, and losses by one iff it is a Lose; BE raises total alone; wins + losses ≤ total is kept |
| PatternAnalysis.Tally | src/pages/PatternAnalysis.jsx:41-47 | Reference bucket of a key, carrying that key; wins + losses never exceed total; an empty bucket is a fresh one |
| PatternAnalysis.Keys | src/pages/PatternAnalysis.jsx:35-63 | The keys of a dimension are distinct and are exactly those with at least one counted trade |
| PatternAnalysis.Category | src/pages/PatternAnalysis.jsx:35-63 | A dimension's dictionary has distinct keys, every bucket has total > 0 and wins + losses ≤ total, and a key is present iff some counted trade has it as its own (non-inherited) key |
| PatternAnalysis.UpdateStat | src/pages/PatternAnalysis.jsx:41-47 | Create-or-increment: the bucket of the key takes the trade, every other bucket is unchanged, and a new key is appended as a fresh bucket plus the trade; an inherited property name leaves the dictionary unchanged; keys stay distinct |
| PatternAnalysis.CategoryStep | src/pages/PatternAnalysis.jsx:36-62 | Appending one trade to the list changes a dictionary exactly as one guarded `updateStat` call does |
| PatternAnalysis.ProcessTrade | src/pages/PatternAnalysis.jsx:35-63 | The forEach callback: an undecided trade returns early, and otherwise each dimension with a non-empty field gets one `updateStat` |
| PatternAnalysis.AnalyzePatterns | src/pages/PatternAnalysis.jsx:27-78 | The one-pass loop yields exactly the reference dictionaries of all four dimensions |
| PatternAnalysis.CategorySum | src/pages/PatternAnalysis.jsx:50-62 | Within one dimension the bucket totals, wins, losses and P&L add up to those of the counted trades that have a non-empty, non-inherited key for that dimension |
| PatternAnalysis.CategoryIgnoresUncounted | src/pages/PatternAnalysis.jsx:36-38 | A trade whose result is not Win, Lose or BE, wherever it stands, changes no dictionary in any dimension |
| PatternAnalysis.InheritedNameEntersNoBucket | src/pages/PatternAnalysis.jsx:41-42 | A trade whose pair, strategy or direction names an inherited property changes no dictionary of that dimension |
| PatternAnalysis.WinRate | src/pages/PatternAnalysis.jsx:69 | Win-rate is 0 for an empty bucket, otherwise rate × total = 100 × wins; it lies in [0, 100] |
| PatternAnalysis.RateAgainst | src/pages/PatternAnalysis.jsx:84-85 | Comparing a win-rate with a bound is the same as comparing 100 × wins with bound × total |
| PatternAnalysis.ThresholdsInIntegers | src/pages/PatternAnalysis.jsx:84-85 | Sweet spot iff total ≥ 3 and 10·wins ≥ 7·total; danger zone iff total ≥ 3 and 10·wins ≤ 4·total |
| PatternAnalysis.Sort | src/pages/PatternAnalysis.jsx:84-85 | The comparator sort returns a permutation of its input, ordered up to ties |
| PatternAnalysis.Filter | src/pages/PatternAnalysis.jsx:84-85 | The filter keeps each kept bucket with its multiplicity and drops every other bucket |
| PatternAnalysis.FindAnomalies | src/pages/PatternAnalysis.jsx:83-87 | Sweet spots are exactly the buckets with total ≥ 3 and win-rate ≥ 70, non-increasing by win-rate; danger zones are exactly those with total ≥ 3 and win-rate ≤ 40, non-decreasing; no bucket is in both |
| PatternAnalysis.Pool | src/pages/PatternAnalysis.jsx:89 | The pool holds exactly the buckets of the four dictionaries, with their multiplicities |
| PatternAnalysis.AnomaliesComeFromTrades | src/pages/PatternAnalysis.jsx:83-90 | Every anomaly found in the pool of the four dictionaries is a bucket of one of them, with at least three trades |
| PatternAnalysis.Breakdown | src/pages/PatternAnalysis.jsx:275 | The breakdown holds min(5, n) buckets of the dimension, non-increasing by total, and no hidden bucket has a larger total than a shown one |
| PatternAnalysis.CoachingWindow | src/pages/PatternAnalysis.jsx:102 | The coach sees the first min(30, n) trades, in list order |
| TradeContext.ReplaceById | src/context/TradeContext.jsx:59 | The update's map keeps length and positions, and replaces exactly the entries with the id |
| TradeContext.RemoveById | src/context/TradeContext.jsx:76 | The delete's filter removes every entry with the id and keeps every other entry with its multiplicity |
| TradeContext.RemoveByIdAppend | src/context/TradeContext.jsx:76 | Filtering distributes over concatenation, so the survivors keep their relative order |
| TradeContext.RemoveAbsentId | src/context/TradeContext.jsx:76 | Deleting an id that no entry has leaves the list as it was |
| TradeContext.RemoveIdempotent | src/context/TradeContext.jsx:76 | After a delete no entry has the id, so a second delete changes nothing |
| TradeContext.TradeCache.constructor | src/context/TradeContext.jsx:7-9 | The cache starts empty, loading, and without an error |
| TradeContext.TradeCache.FetchTrades | src/context/TradeContext.jsx:15-31 | A fetch issues one select. A reply with rows replaces the list, and null rows give []. An error keeps the list and records its message. Loading is false afterwards |
| TradeContext.TradeCache.AddTrade | src/context/TradeContext.jsx:33-47 | An add issues one insert. On success the returned row is prepended to the unchanged old list. On error the list is unchanged and the failure carries the message |
| TradeContext.TradeCache.UpdateTrade | src/context/TradeContext.jsx:49-65 | An update issues one update for the id. On success every entry with the id becomes the returned row. On error the list is unchanged and the failure carries the message |
| TradeContext.TradeCache.DeleteTrade | src/context/TradeContext.jsx:67-82 | A delete issues one delete for the id. On success exactly the entries with the id go. On error the list is unchanged and the failure carries the message |
| Dashboard.CountResult | src/pages/Dashboard.jsx:11-12 | A result count never exceeds the number of trades, and it is 0 iff no trade has that result |
| Dashboard.WinsAndLossesBounded | src/pages/Dashboard.jsx:10-12 | wins + losses ≤ totalTrades, with equality iff every trade is a Win or a Lose |
| Dashboard.WinRate | src/pages/Dashboard.jsx:14 | The win-rate denominator is all trades: rate × n = 100 × wins, 0 with no trades, always in [0, 100] |
| Dashboard.NonWinNeverRaisesRate | src/pages/Dashboard.jsx:14 | Adding a trade that is not a Win, including BE or Pending, never raises the win-rate |
| Dashboard.NetPnL | src/pages/Dashboard.jsx:15 | The net P&L is 0 on an empty list, non-negative when no trade lost money, and non-positive when no trade made money |
| Dashboard.NetPnLAppend | src/pages/Dashboard.jsx:15 | The net P&L of two lists joined is the sum of their net P&Ls |
| Dashboard.NetPnLWithoutValues | src/pages/Dashboard.jsx:15 | Trades without a P&L contribute 0, and the empty list sums to 0 |
| Dashboard.RecentActivity | src/pages/Dashboard.jsx:87 | The recent-activity table shows the first min(5, n) trades, in list order |
| Dashboard.RecentAfterPrepend | src/pages/Dashboard.jsx:87 | A trade just prepended by an add leads the table, and the previous first four follow it |
| Dashboard.Summarize | src/pages/Dashboard.jsx:10-15 | totalTrades is the list length; wins and losses are the Win and Lose counts; winRate and netPnL are the win-rate and net P&L; wins + losses ≤ totalTrades; all figures are 0 on an empty list |
| StrategyEditor.TextOrEmpty | src/pages/Strategy.jsx:31-32 | A null column becomes "" and any other column is taken as it is |
| StrategyEditor.RequestFor | src/pages/Strategy.jsx:63-79 | A save updates the known row iff an id is known, and inserts otherwise; the payload is carried unchanged |
| StrategyEditor.IdAfter | src/pages/Strategy.jsx:81-88 | A reply with rows makes the first row's id the known one; an error or an empty reply keeps the old id |
| StrategyEditor.KnownIdStaysKnown | src/pages/Strategy.jsx:85-88 | Once an id is known, no save reply (whose rows carry ids) makes it unknown again |
| StrategyEditor.Editor.constructor | src/pages/Strategy.jsx:6-14 | Empty texts, nothing saved, no id, loading, first load pending, and no save scheduled |
| StrategyEditor.Editor.AutosaveEffect | src/pages/Strategy.jsx:97-105 | The effect cancels the pending save, then schedules the current texts unless loading or the first load has not settled |
| StrategyEditor.Editor.FetchStrategy | src/pages/Strategy.jsx:21-49 | A row sets both texts (null as "") and the id, and sets lastSaved when it has an update time. No row keeps the defaults. Loading ends, and the first load schedules no save |
| StrategyEditor.Editor.FirstLoadSettled | src/pages/Strategy.jsx:45-47 | After the first-load delay, later edits are saved |
| StrategyEditor.Editor.SetStrategy | src/pages/Strategy.jsx:97-105 | An edit that changes the strategy replaces any pending save with one of the new texts, or with none while the guard holds; an unchanged value changes nothing |
| StrategyEditor.Editor.SetNotes | src/pages/Strategy.jsx:97-105 | An edit that changes the notes replaces any pending save with one of the new texts, or with none while the guard holds; an unchanged value changes nothing |
| StrategyEditor.Editor.SaveData | src/pages/Strategy.jsx:52-94 | A save issues an update of the known id, or an insert, with the given texts and timestamp. Rows returned set id and lastSaved. An error changes neither. Saving is false at the end |
| StrategyEditor.Editor.TimerElapsed | src/pages/Strategy.jsx:100-102 | When the timer fires, the one pending save is made, and it holds the latest strategy and notes; the id and lastSaved follow the reply as in a save; with none pending nothing changes |
| TradeForm.NatToString | src/components/TradeForm/TradeForm.jsx:15 | A number is written in digits, without leading zeros, as one character exactly when it is below 10 |
| TradeForm.ParseNatToString | src/components/TradeForm/TradeForm.jsx:15 | Reading a written number back gives the number |
| TradeForm.PadStart2 | src/components/TradeForm/TradeForm.jsx:15 | padStart(2, '0') leaves texts of two or more characters alone and left-fills shorter ones with '0' to length 2 |
| TradeForm.Pad2RoundTrip | src/components/TradeForm/TradeForm.jsx:15 | A month or day below 100 becomes exactly two digits that read back as itself |
| TradeForm.DefaultDate | src/components/TradeForm/TradeForm.jsx:13-16 | For a four-digit year the default date has length 10, with '-' at positions 4 and 7 |
| TradeForm.DefaultDateRoundTrip | src/components/TradeForm/TradeForm.jsx:13-16 | The default date's three fields are digits and read back as the year, the 1-based month and the day |
| TradeForm.InitialForm | src/components/TradeForm/TradeForm.jsx:12-30 | The blank form has exactly the input fields, today's date and time, direction Long, result Win, and "" everywhere else |
| TradeForm.FindById | src/components/TradeForm/TradeForm.jsx:36 | find returns nothing iff no trade has the id, and otherwise the first trade with it |
| TradeForm.NumberOrBlank | src/components/TradeForm/TradeForm.jsx:40-43 | `x \|\| ''` gives "" exactly for a null or zero number, and keeps every other number |
| TradeForm.Prefill | src/components/TradeForm/TradeForm.jsx:38-45 | The prefilled record has exactly the trade's columns: every input field plus the id |
| TradeForm.PrefillCopiesIdentity | src/components/TradeForm/TradeForm.jsx:38-39 | The spread copies the id, date, time, pair and direction unchanged |
| TradeForm.PrefillCopiesNotes | src/components/TradeForm/TradeForm.jsx:38-44 | The spread copies timeframe, setup, strategy, result and comment unchanged, and a null chart link becomes "" |
| TradeForm.PrefillKeepsNonZeroNumbers | src/components/TradeForm/TradeForm.jsx:40-43 | The prefilled P&L, target R:R, entry price and stop loss are the trade's numbers, with zero read as absent |
| TradeForm.PrefillRoundTrip | src/components/TradeForm/TradeForm.jsx:38-45 | Reading a prefilled form back gives the trade it came from, except that zero numbers and an empty chart link come back absent |
| TradeForm.ErrorText | src/components/TradeForm/TradeForm.jsx:71 | The error shown is the failure's message, or "Failed to save trade" when that is empty; it is never empty |
| TradeForm.Form.constructor | src/components/TradeForm/TradeForm.jsx:9-32 | The form starts blank with the default date, not loading, without an error, and in edit mode iff the route has an id |
| TradeForm.Form.PrefillEffect | src/components/TradeForm/TradeForm.jsx:34-48 | In edit mode with a trade matching the id, the form becomes that trade's prefill. Otherwise the form is unchanged, and every input keeps a value |
| TradeForm.Form.HandleChange | src/components/TradeForm/TradeForm.jsx:50-53 | Exactly the named field takes the new text, and every other field is unchanged |
| TradeForm.Form.HandleSubmit | src/components/TradeForm/TradeForm.jsx:55-75 | Edit mode sends an update of the route's id, and otherwise an add, with the form's record. Success navigates to /trades. Failure shows the error text and keeps the cache's list. Loading is false at the end |

## Left out

- Rendering, icons, routing and the pages that only display data (trade
  details, trade list, layout, app shell) are not part of this model.
- The store client and its query builder are not modelled. Each call's
  reply is a parameter, and the server's ordering (newest date first) is not
  modelled.
- The coaching request, its JSON parsing, its rate-limit handling and its
  alerts are network I/O. Only the 30-trade window is kept.
- Timers: the 2000 ms debounce and the 500 ms first-load delay are events
  (`Editor.TimerElapsed`, `Editor.FirstLoadSettled`), not durations.
- Concurrency: each save, fetch and submit completes in one step. `saveData`
  captures `id` when its timer is scheduled. If an edit is scheduled while an
  insert is still in flight, the code can insert a second row; the model
  cannot express that interleaving.
- Floating point: P&L and win-rates are exact reals. `toFixed`,
  `toLocaleString`, `Date` and `toLocaleTimeString` are not modelled. The
  current date and time are parameters.
- JS coercion: the model has no non-numeric P&L. Such a value is NaN in the
  analysis (`Number(...)` of the text) but counts as 0 on the dashboard
  (`Number(...) || 0`). The model's P&L is absent or numeric, which is where
  the two agree.
- Inherited property names: for a pair, strategy or direction named like
  an inherited object property, the model keeps the dictionaries unchanged.
  The model does not track the increments the code makes to the inherited
  property itself. For "__proto__" those increments change the object
  prototype shared by the whole page.
- Object key order: JS enumerates integer-like keys (an hour key is never
  one, but a pair or strategy such as "100" could be) before other keys, in
  numeric order. The model keeps insertion order for every key.
- Text columns that are null in a row are modelled as "". Prefill therefore
  gives "" where the code would copy a null.
- Columns other than the ones the form edits (`user_id`, `created_at`) are
  not part of the trade record.
- TradeContext.TradeCache.AddTrade: a successful insert or update reply is
  taken to carry at least one row. The case of an empty reply, where the
  code puts `undefined` into the list, is not modelled.
- Tie order in the sorts is not pinned down: sortedness and permutation are
  stated up to ties.
- StrategyEditor.FetchReply: the store's "no rows" code and any other fetch
  error both leave the page as it was. The code only logs the difference, so
  the model does not keep it.
