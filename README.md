# EcoFeast core in Dafny

EcoFeast is a restaurant dashboard that tracks food waste. Each day and each
menu item produce one `DailyRecord`, which holds the units prepared and sold,
the waste, the revenue and the loss. This project models the following parts
of the dashboard:

- the summary statistics and the app shell that holds the session and the history;
- the seven-day chart and the top-five waste ranking;
- the category and weekday analytics;
- the what-if demand simulator;
- the carbon-impact card;
- the entry form, the searchable history log, the weather widget and the donation card;
- the voice-command classifier;
- the two generators of demo history: the browser one and the server seed;
- the server's request checks and reply shaping for auth, records, forecast, weather and chat.

Each source file has its own module. Pure computations such as `useMemo`
bodies, reducers and route checks are functions. The loops they run appear as
methods proved against those functions. Components whose state React updates
are classes, and each handler is a method with a `modifies` clause. The shared
foundations are:

- `Folds`: sums, filters, buckets, first match.
- `Grouping`: a JavaScript `Map` or object in insertion order, as a key sequence plus a map.
- `Sorting`: a stable insertion sort, standing in for `Array.prototype.sort`.
- `Numeric`: `Math.round`, `Math.floor` and `toFixed` on exact rationals.
- `Strings`: `includes`, `startsWith`, `toLowerCase`, `trim` and the `<` order on strings.
- `Calendar`: parsing `YYYY-MM-DD`, day numbers and weekdays.

Some inputs are not computed by the code itself. These become parameters:

- network replies such as fetch outcomes, the model's reply and the weather service's JSON;
- `Math.random()` draws;
- today's date, as a calendar date; the days the generators use are computed from it;
- `localStorage`, which is a map field of the shell.

## Model

Functions that only compute what the source computes carry no contract of
their own; the rows of the lemmas that state their properties name them in
backticks at the head of the third column.

| member | source | states |
|---|---|---|
| Numeric.Round | frontend/components/WhatIfSimulator.tsx:50-51 | `Math.round` gives the integer within half a unit, with ties rounding up |
| Numeric.Fixed0 | frontend/components/WhatIfSimulator.tsx:77 | `toFixed(0)`: the nearest integer, with halves rounding away from zero |
| Numeric.Fixed1 | frontend/components/CarbonTracker.tsx:65 | `toFixed(1)`: the nearest tenth (halves away from zero), and the result has one decimal |
| Numeric.RoundMonotone | frontend/components/WhatIfSimulator.tsx:64-65 | rounding preserves order, so a larger demand never rounds lower |
| Numeric.FixedMonotone | frontend/components/CarbonTracker.tsx:28-55 | the shown figures (`toFixed(0)` and `toFixed(1)`) preserve order on non-negative values |
| Numeric.Fixed1Bounds | frontend/App.tsx:106-107 | a percentage in 0..100 stays in 0..100 once rounded to a tenth |
| Strings.ContainsAt | frontend/components/Analytics.tsx:35 | `includes` holds exactly when the needle occurs at some index |
| Strings.ContainsTransitive | frontend/components/Analytics.tsx:35-37 | a string containing u also contains every substring of u |
| Strings.ToLower | frontend/components/HistoryLog.tsx:13 | `toLowerCase` keeps the length and maps each character on its own |
| Strings.ToLowerIdempotent | frontend/components/VoiceCommand.tsx:33 | lowercasing twice equals lowercasing once |
| Strings.Trim | frontend/components/VoiceCommand.tsx:33 | `trim` leaves the substring between the leading and the trailing whitespace, with no whitespace at either end |
| Strings.TrimStart | frontend/components/VoiceCommand.tsx:33 | only leading whitespace is removed, and all of it |
| Strings.TrimEnd | frontend/components/VoiceCommand.tsx:33 | only trailing whitespace is removed, and all of it |
| Strings.LexLessTotal | frontend/components/Dashboard.tsx:50 | `LexLess`: the `<` order on strings is total, so every pair of distinct dates is ordered |
| Strings.LexLessTransitive | frontend/components/Dashboard.tsx:50 | `LexLess`: the `<` order on strings is transitive |
| Folds.SumPermutation | frontend/App.tsx:99-101 | a reduce-sum does not depend on the order of the records |
| Folds.SumAppend | frontend/App.tsx:99-101 | the sum over a concatenation is the sum of the two sums |
| Folds.BucketsCover | frontend/components/Analytics.tsx:48-52 | bucketed sums add up to the sum of the records that fall in some bucket |
| Folds.FindFirst | backend/src/index.ts:312 | `find` returns the first element that satisfies the test |
| Sorting.SortBySpec | frontend/components/Dashboard.tsx:49-51 | the sort is ordered by its comparator, is a permutation of its input, and is stable |
| Sorting.SortBySorted | frontend/components/Dashboard.tsx:50 | sorting an already sorted sequence changes nothing |
| Sorting.SortedTiesKeepOrder | frontend/components/Dashboard.tsx:62 | two entries the comparator ties keep their input order |
| Grouping.GroupKeys | frontend/components/Dashboard.tsx:40-48 | a grouped map has each key once, exactly the keys that occur |
| Grouping.GroupKeyOrder | frontend/components/Dashboard.tsx:49 | map keys come in the order of their first occurrence (insertion order) |
| Grouping.GroupValue | frontend/components/Dashboard.tsx:41-47 | each key's value is the fold of exactly the records with that key, in order |
| Grouping.GroupPartition | frontend/components/Dashboard.tsx:57-59 | the per-key totals add up to the total over all records |
| Calendar.ParseIsoDate | frontend/components/Analytics.tsx:49 | a parsed `YYYY-MM-DD` string is a real calendar date |
| Calendar.DayNumberOrder | frontend/components/HistoryLog.tsx:15 | `getTime` order (day numbers) is calendar order, and equal numbers mean the same date |
| Calendar.WeekdayOfNextDay | frontend/components/Analytics.tsx:49 | `getDay` advances by one, modulo 7, from one day to the next |
| Calendar.IsoOrderIsChronological | frontend/components/Dashboard.tsx:50 | for ISO dates, string order equals `getTime` order |
| Calendar.IsoSameDate | frontend/components/Dashboard.tsx:41 | two ISO strings for the same date are the same string, so grouping by string groups by day |
| WhatIf.MultiplierChoice | frontend/components/WhatIfSimulator.tsx:60-61 | the custom slider value / 100 when custom is on; otherwise the scenario's factor |
| WhatIf.ScenarioLookup | frontend/components/WhatIfSimulator.tsx:60-61 | `FindScenario`: a found scenario carries the id asked for, and an unknown id falls back to 1.0 |
| WhatIf.ScenarioTitles | frontend/components/WhatIfSimulator.tsx:18-25 | no scenario is titled "Custom" or has an empty title |
| WhatIf.MultiplierRange | frontend/components/WhatIfSimulator.tsx:159-167 | with the slider in 50..200, the multiplier is in 0.5..2.0 |
| WhatIf.FactorRange | frontend/components/WhatIfSimulator.tsx:18-25 | every scenario factor is in 0.75..1.8 |
| WhatIf.AccumulateItemAverages | frontend/components/WhatIfSimulator.tsx:36-43 | the forEach loop builds exactly the per-name totals table |
| WhatIf.ItemTotalsAreSums | frontend/components/WhatIfSimulator.tsx:36-43 | an item's totals are the sold and waste sums and the count of its records; a name is present exactly when it has records |
| WhatIf.ComputeBasePredictions | frontend/components/WhatIfSimulator.tsx:45-54 | the `menu.map` loop yields the base predictions |
| WhatIf.BasePredictionsFollowMenu | frontend/components/WhatIfSimulator.tsx:45-54 | there is one prediction per menu item, in menu order, with that item's prices |
| WhatIf.BaseDemandIsAverage | frontend/components/WhatIfSimulator.tsx:46-51 | base demand is the rounded mean of sold; with no records, 20 demand and 3 waste |
| WhatIf.AdjustedPredictions | frontend/components/WhatIfSimulator.tsx:63-79 | every base prediction is projected under the same multiplier |
| WhatIf.PrepBuffer | frontend/components/WhatIfSimulator.tsx:64-66 | `Project`: prep is the demand plus a rounded 5% buffer: never below demand, at most one unit over 1.05 × demand |
| WhatIf.ProjectionAmounts | frontend/components/WhatIfSimulator.tsx:67-68 | `Project`: revenue is demand × price and waste cost is waste × cost |
| WhatIf.NeutralMultiplier | frontend/components/WhatIfSimulator.tsx:77 | `Project`: under 1.0 the demand is unchanged and the change is 0% (no change when the base is 0) |
| WhatIf.DemandMonotone | frontend/components/WhatIfSimulator.tsx:64 | `Project`: a larger multiplier never lowers the adjusted demand |
| WhatIf.TotalPrepCoversDemand | frontend/components/WhatIfSimulator.tsx:84-89 | `TotalsOf`: total prep is total demand plus total expected waste |
| WhatIf.Simulator.constructor | frontend/components/WhatIfSimulator.tsx:28-30 | starts on "normal", slider at 100, custom off |
| WhatIf.Simulator.Reset | frontend/components/WhatIfSimulator.tsx:107-111 | reset returns to "normal", 100 and custom off |
| WhatIf.Simulator.ChooseScenario | frontend/components/WhatIfSimulator.tsx:123-126 | choosing a scenario selects it and turns custom off |
| WhatIf.Simulator.SetUseCustom | frontend/components/WhatIfSimulator.tsx:150 | the checkbox sets only the custom flag |
| WhatIf.Simulator.Slide | frontend/components/WhatIfSimulator.tsx:164-167 | moving the slider stores its value and turns custom on |
| WhatIf.Simulator.CurrentMultiplier | frontend/components/WhatIfSimulator.tsx:61 | in every reachable state the multiplier is in 0.5..2.0 |
| WhatIf.Simulator.InsightTitle | frontend/components/WhatIfSimulator.tsx:92 | shows the found scenario's title, and "Custom" exactly when none is found |
| Analytics.CategoryData | frontend/components/Analytics.tsx:26-41 | returns the three slices Main, Appetizer, Breakfast in that order, each the waste of the records filed under it |
| Analytics.FileWaste | frontend/components/Analytics.tsx:34-38 | one record adds its waste to the first matching category only |
| Analytics.CategoryWasteStep | frontend/components/Analytics.tsx:34-38 | one more record changes only its own category's total |
| Analytics.CategoriesCoverMatched | frontend/components/Analytics.tsx:34-38 | the three slices add up to the waste of every record whose name matches a category |
| Analytics.UnmatchedContributeNothing | frontend/components/Analytics.tsx:35-37 | names matching no rule contribute to no slice |
| Analytics.FirstMatchWins | frontend/components/Analytics.tsx:35 | any name holding "Burger", "Pasta" or "Salmon" anywhere is filed under Main, whatever else it holds (so "Salmon Salad" is Main) |
| Analytics.SaladMakesAppetizer | frontend/components/Analytics.tsx:35-36 | a name holding "Salad" and no Main keyword is filed under Appetizer |
| Analytics.ToastMakesBreakfast | frontend/components/Analytics.tsx:35-37 | a name holding "Toast" and no earlier keyword is filed under Breakfast |
| Analytics.MatchingIsCaseSensitive | frontend/components/Analytics.tsx:35-37 | no lower-cased name matches any rule, because `includes` is case-sensitive |
| Analytics.LowerCaseNamesCountNowhere | frontend/components/Analytics.tsx:34-38 | a history of lower-case names leaves all three slices at 0 |
| Analytics.CatalogueCategories | frontend/components/Analytics.tsx:35-37 | each catalogue item is filed under its own declared category |
| Analytics.DayOfWeekData | frontend/components/Analytics.tsx:44-58 | returns no result exactly when some date does not parse; otherwise seven rows, each with its weekday's waste and prepared sums |
| Analytics.DayBucketsStep | frontend/components/Analytics.tsx:48-52 | one more record changes only its own weekday's bucket |
| Analytics.DayEfficiencyBounds | frontend/components/Analytics.tsx:54-57 | `DayEfficiency`: 0 when nothing was prepared; otherwise within 0..100 when waste ≤ total |
| Analytics.DaysCoverHistory | frontend/components/Analytics.tsx:48-52 | the seven buckets add up to the total waste and total prepared |
| Dashboard.ChartData | frontend/components/Dashboard.tsx:38-52 | the chart loop yields the chart series |
| Dashboard.ByDateOrder | frontend/components/Dashboard.tsx:50 | the date comparator is a total preorder |
| Dashboard.DailyTotalsAreSums | frontend/components/Dashboard.tsx:40-48 | `DailyTotals`: each day's point is the prepared, sold and waste sums of that date's records |
| Dashboard.SortedPointsAscending | frontend/components/Dashboard.tsx:49-50 | the points are in strictly increasing date order |
| Dashboard.ChartLength | frontend/components/Dashboard.tsx:51 | `ChartSeries`: the chart has min(7, number of distinct dates) points |
| Dashboard.ChartTotals | frontend/components/Dashboard.tsx:40-51 | `ChartSeries`: each chart point is a date that occurs, with that date's totals |
| Dashboard.ChartAscending | frontend/components/Dashboard.tsx:49-51 | `ChartSeries`: the chart dates increase strictly |
| Dashboard.ChartLatestDates | frontend/components/Dashboard.tsx:51 | `ChartSeries`: a date left off the chart is earlier than every date shown |
| Dashboard.IsoChartChronological | frontend/components/Dashboard.tsx:50 | with ISO dates the chart runs in increasing calendar order |
| Dashboard.TopWasteItems | frontend/components/Dashboard.tsx:55-64 | the ranking loop yields the top-five list |
| Dashboard.ByWasteOrder | frontend/components/Dashboard.tsx:62 | the descending-waste comparator is a total preorder |
| Dashboard.ItemWasteIsSum | frontend/components/Dashboard.tsx:57-59 | an item's entry is the waste summed over its records |
| Dashboard.TopWasteRanking | frontend/components/Dashboard.tsx:61-63 | `TopWaste`: min(5, item count) entries of items that occur, distinct, each with its summed waste, in non-increasing order |
| Dashboard.TopWasteNamesDistinct | frontend/components/Dashboard.tsx:55-63 | `TopWaste`: no item appears twice in the ranking |
| Dashboard.TopWasteLargest | frontend/components/Dashboard.tsx:61-63 | `TopWaste`: an item left out wastes no more than any item listed |
| Dashboard.TopWasteTies | frontend/components/Dashboard.tsx:62 | `TopWaste`: tied items keep the order in which they first appear in the history |
| Dashboard.ItemsSoldPerDate | frontend/components/Dashboard.tsx:107 | `ItemsSold`: the "Items Sold" card equals the sum over the per-date totals, and is non-negative |
| Dashboard.WasteByItemPartition | frontend/components/Dashboard.tsx:57-59 | the per-item waste adds up to the total waste |
| Dashboard.DailyAverage | frontend/components/Dashboard.tsx:159 | `Math.floor(waste / Math.max(1, n))`, lying in 0..waste for non-negative waste |
| Dashboard.PercentLabel | frontend/components/Dashboard.tsx:86 | the label always contains "%", and appends it only when it is missing |
| Dashboard.PercentLabelIdempotent | frontend/components/Dashboard.tsx:86 | labelling twice equals labelling once |
| App.RawWastePercentage | frontend/App.tsx:100-101 | no value exactly when nothing was prepared; otherwise waste / prepared × 100 |
| App.EmptyHistoryHasNoPercentage | frontend/App.tsx:96-109 | `StatsAsWritten`: as written, an empty history gives no percentage and no efficiency (NaN) |
| App.GuardedStats | frontend/App.tsx:96-109 | with the zero guard, 0 and 100 when nothing was prepared; otherwise the rounded percentages; same totals as written |
| App.PercentagesComplement | frontend/App.tsx:101-107 | `StatsAsWritten`: the card shows the waste percentage and 100 minus it, each rounded to a tenth; for sane records the two shown figures add up to 100, or to 100.1 when the waste percentage lies half-way between two tenths |
| App.RoundedPercentagesMayNotAddUp | frontend/App.tsx:106-107 | rounded to a tenth, waste and efficiency add up to 100, except for a waste percentage exactly half-way between tenths, where they add up to 100.1 (2.3 and 97.8 for 9/400) |
| App.GuardedStatsBounds | frontend/App.tsx:96-109 | for sane records the total waste is non-negative, both percentages lie in 0..100 and their rounded sum in 99.9..100.1; the total loss is non-negative when no record's loss is negative |
| App.StatsOrderIndependent | frontend/App.tsx:96-109 | `StatsAsWritten`, `GuardedStats`: the statistics do not depend on the order of the records |
| App.StatsOfPrepended | frontend/App.tsx:90-98 | a prepended record adds its waste and loss to the totals |
| App.TabNamed | frontend/App.tsx:135 | a page name is accepted exactly when it is one of the five tabs |
| App.VoicePagesAreTabs | frontend/App.tsx:134-137 | every page the voice classifier can navigate to is a tab |
| App.Shell.constructor | frontend/App.tsx:38-46 | the landing page, the dashboard tab, empty history, no session |
| App.Shell.RestoreSession | frontend/App.tsx:48-58 | a truthy stored token restores token, user (or "{}") and the main app; otherwise the landing page |
| App.Shell.LoadRecords | frontend/App.tsx:60-78 | with a token and a successful fetch, the history becomes the fetched records; otherwise it is kept |
| App.Shell.AddRecord | frontend/App.tsx:80-94 | a saved record is prepended to the history; a failed save or a missing token keeps it |
| App.Shell.AuthSuccess | frontend/App.tsx:111-117 | stores token and user in state and storage, and enters the main app |
| App.Shell.Logout | frontend/App.tsx:119-125 | clears token and user from state and storage, and returns to the landing page |
| App.Shell.GetStarted | frontend/App.tsx:127-130 | opens the auth page on the login form |
| App.Shell.HandleVoiceCommand | frontend/App.tsx:132-148 | navigate switches tab, run-forecast opens the forecaster, log-entry opens the form, and nothing else changes |
| App.Shell.SelectTab | frontend/App.tsx:231-256 | a sidebar button sets only the active tab |
| App.Shell.SetEntryFormShown | frontend/App.tsx:263 | opening or closing the form sets only that flag |
| App.Shell.SetRegisterShown | frontend/App.tsx:175-178 | switching between login and register sets only that flag |
| App.ReloadAfterSignIn | frontend/App.tsx:48-58 | after sign-in, a reload restores the token, the user and the main app |
| App.ReloadAfterSignOut | frontend/App.tsx:119-125 | after sign-out, a reload stays on the landing page without a token |
| Carbon.ImpactOf | frontend/components/CarbonTracker.tsx:16-23 | food = 0.14, CO2 = 0.35, car km = 1.4, trees = 1/60 and water = 14 per unit of waste |
| Carbon.ImpactOfEmpty | frontend/components/CarbonTracker.tsx:14-23 | `CarbonImpact`: no history gives zero impact |
| Carbon.ImpactMonotone | frontend/components/CarbonTracker.tsx:16-23 | more waste never lowers any metric |
| Carbon.ImpactOfMoreRecords | frontend/components/CarbonTracker.tsx:14-23 | `CarbonImpact`: adding sane records never lowers any metric |
| Carbon.ImpactAdditive | frontend/components/CarbonTracker.tsx:14-23 | `CarbonImpact`: the impact of two histories together is the sum of their impacts |
| Carbon.ShownMonotone | frontend/components/CarbonTracker.tsx:28-55 | `ShownImpact`: the shown (`toFixed`) figures never drop as waste grows |
| Carbon.EfficiencyScore | frontend/components/CarbonTracker.tsx:64-66 | 0 when nothing was prepared |
| Carbon.EfficiencyScoreAgrees | frontend/components/CarbonTracker.tsx:64-66 | within 0..100, and equal to the header's efficiency whenever something was prepared |
| EntryForm.BuildRecord | frontend/components/EntryForm.tsx:17-32 | waste = max(0, prepared − sold), revenue = sold × price, loss = waste × cost, fields copied from the item |
| EntryForm.BuildRecordSane | frontend/components/EntryForm.tsx:17-32 | non-negative input gives a sane record; sold + waste = prepared when sold ≤ prepared |
| EntryForm.ItemWithId | frontend/components/EntryForm.tsx:59-62 | the catalogue item with that id, and none exactly when no item has it |
| EntryForm.EveryIdSelectsItsItem | frontend/components/EntryForm.tsx:59-62 | every catalogue id selects its own item |
| EntryForm.Form.constructor | frontend/components/EntryForm.tsx:12-15 | first item, 50 prepared, 45 sold, today's date |
| EntryForm.Form.SelectItem | frontend/components/EntryForm.tsx:59-62 | a known id selects its item; an unknown id keeps the selection |
| EntryForm.Form.SetPrepared | frontend/components/EntryForm.tsx:79 | sets only the prepared count |
| EntryForm.Form.SetSold | frontend/components/EntryForm.tsx:90 | sets only the sold count |
| EntryForm.Form.SetDate | frontend/components/EntryForm.tsx:50 | sets only the date |
| EntryForm.Form.Submit | frontend/components/EntryForm.tsx:17-32 | submits the record built from the form, then closes it |
| EntryForm.Form.Close | frontend/components/EntryForm.tsx:39 | closes without submitting |
| EntryForm.PreviewMatchesSubmission | frontend/components/EntryForm.tsx:17-32 | the live preview's waste and loss are those of the record a submit sends |
| EntryForm.FillAndSubmit | frontend/components/EntryForm.tsx:17-32 | filling the form and submitting sends one sane record and closes once |
| HistoryLog.NewerFirstOrder | frontend/components/HistoryLog.tsx:15 | the newest-first comparator is a total preorder |
| HistoryLog.NewerFirstIsTimeOrder | frontend/components/HistoryLog.tsx:15 | for ISO dates, newer-first is descending `getTime` order |
| HistoryLog.FilteredContents | frontend/components/HistoryLog.tsx:12-15 | `Filtered`, `Matches`: the list holds exactly the records that match the term, none lost or duplicated |
| HistoryLog.EmptyTermListsAll | frontend/components/HistoryLog.tsx:12-14 | `Filtered`, `Matches`: an empty search lists every record |
| HistoryLog.FilteredNewestFirst | frontend/components/HistoryLog.tsx:15 | `Filtered`: the list is ordered newest first |
| HistoryLog.FilteredSameDateInOrder | frontend/components/HistoryLog.tsx:15 | `Filtered`: records of the same date keep their history order |
| HistoryLog.FilteredByTime | frontend/components/HistoryLog.tsx:15 | `Filtered`: with ISO dates, earlier rows never have older dates than later rows |
| HistoryLog.HighlightedCount | frontend/components/HistoryLog.tsx:64 | sorting does not change how many rows are highlighted (waste > 5) |
| Weather.WeatherIcon | frontend/components/WeatherWidget.tsx:42-49 | sun for 0-1, rain for 51-82, storm from 95, cloud otherwise |
| Weather.SnowIconUnreachable | frontend/components/WeatherWidget.tsx:45-46 | as written the snow icon is never chosen; 71-77 show rain |
| Weather.WeatherIconIntended | frontend/components/WeatherWidget.tsx:42-49 | snow exactly for 71-77; rain for the rest of 51-82 |
| Weather.IntendedDiffersOnlyOnSnow | frontend/components/WeatherWidget.tsx:45-46 | the corrected icon differs from the written one exactly on 71-77 |
| Weather.NumericValue | frontend/components/WeatherWidget.tsx:58-63 | in a `<` or `>` test an undefined temperature has no value (NaN), null counts as 0 and a number as itself |
| Weather.TemperatureOf | backend/src/index.ts:376 | a missing `temperature_2m_max[1]` reaches the page as undefined; a present one as its degrees |
| Weather.GetDemandImpact | frontend/components/WeatherWidget.tsx:51-68 | rainy for 61-82; otherwise hot above 35 degrees and cold below 15 or for null; clear for codes 0-1 at mild or undefined temperatures; demand goes up for rainy, hot and cold |
| Weather.RainOverridesTemperature | frontend/components/WeatherWidget.tsx:55-57 | on rain codes the temperature does not matter |
| Weather.BoundaryTemperatures | frontend/components/WeatherWidget.tsx:58-63 | exactly 35 and exactly 15 are neither hot nor cold |
| Weather.MildTemperatureIsNeutral | frontend/components/WeatherWidget.tsx:51-68 | mild weather raises no demand: clear on codes 0-1, moderate otherwise; an undefined temperature reads like a mild one |
| Weather.MissingTemperature | frontend/components/WeatherWidget.tsx:58-63 | null reads as 0 degrees and so as cold; a forecast without tomorrow's maximum leaves the code to decide between clear and moderate |
| Weather.DrizzleIsNotRainForDemand | frontend/components/WeatherWidget.tsx:45-55 | drizzle (51-60) shows the rain icon but is not rainy for demand |
| FoodDonation.PartnerListShape | frontend/components/FoodDonation.tsx:22-71 | four partners with distinct ids, all accepting today, rated 4.7..5.0 |
| FoodDonation.EstimatedMeals | frontend/components/FoodDonation.tsx:108 | `Math.floor(waste × 0.8)`, at most the waste itself |
| FoodDonation.BannerImpliesMeals | frontend/components/FoodDonation.tsx:122-146 | the banner implies the meals line and at least 8 meals; a single unit gives 0 meals |
| FoodDonation.MealsMonotone | frontend/components/FoodDonation.tsx:108 | more waste never means fewer meals |
| FoodDonation.TypeLabel | frontend/components/FoodDonation.tsx:87-94 | maps ngo, shelter and foodbank to their labels; other kinds are shown as they are |
| FoodDonation.TypeIconOf | frontend/components/FoodDonation.tsx:78-85 | the plain heart exactly for the kinds without a label |
| FoodDonation.PartnersHaveKnownKinds | frontend/components/FoodDonation.tsx:22-94 | every listed partner has a known kind and a specific icon |
| FoodDonation.DonationCard.constructor | frontend/components/FoodDonation.tsx:74-76 | nothing selected, no pickup scheduled, no details open |
| FoodDonation.DonationCard.SchedulePickup | frontend/components/FoodDonation.tsx:96-99 | selects the partner, marks the pickup scheduled, and calls back when a callback is given |
| FoodDonation.DonationCard.ClickSchedule | frontend/components/FoodDonation.tsx:198 | the button does nothing while a pickup is already scheduled |
| FoodDonation.DonationCard.ResetPickup | frontend/components/FoodDonation.tsx:102-105 | the timer clears the selection and the success message |
| FoodDonation.DonationCard.ToggleDetails | frontend/components/FoodDonation.tsx:164 | opens a partner's details, or closes them when already open |
| Constants.CatalogueShape | frontend/constants.ts:3-9 | five items with ids "1".."5", distinct names, 0 < cost < price |
| Calendar.IsoString | frontend/constants.ts:19 | the date written as ten characters `YYYY-MM-DD` |
| Calendar.IsoStringRoundTrip | frontend/constants.ts:19 | the written string of a valid date parses back to that same date |
| Calendar.PrevDate | frontend/constants.ts:18 | the day before a date is a valid date whose day number is one less, across month and year ends |
| Calendar.DaysAgo | frontend/constants.ts:17-18 | `setDate(getDate() - n)` gives a valid date exactly n day numbers earlier |
| Constants.DayOf | frontend/constants.ts:19-23 | a day's ISO string has ten characters and its weekday lies in 0..6 |
| Constants.DaysFrom | frontend/constants.ts:16-18 | the loop from i = back down to back − n + 1 yields n days |
| Constants.DaysFromAreConsecutive | frontend/constants.ts:16-19 | day i of the days starting `back` days ago parses to day number today − back + i, and carries that date's weekday; the history's fourteen end yesterday and the seed's sixty end today |
| Constants.GenerateHistory | frontend/constants.ts:12-45 | 14 × 5 records; record k is built from the day k / 5 of the fourteen days before today, item k % 5 and its two draws |
| Constants.BuildHistory | frontend/constants.ts:16-43 | the loop over the given fourteen days: record k is built from day k / 5, item k % 5 and draws 2k and 2k + 1 |
| Constants.SeedDemand | frontend/constants.ts:24-27 | `SeedRecord`: base demand lies in 20..49; weekend sales are 1.4 × base rounded down |
| Constants.SeedWaste | frontend/constants.ts:29-41 | `SeedRecord`: prepared ≥ sold, so waste = prepared − sold ≥ 0 and loss = waste × cost |
| Seed.SeedMenuMatchesCatalogue | backend/src/index.ts:45-51 | the server seed uses the same five items as the browser catalogue |
| Seed.BaseDemand | backend/src/index.ts:70-78 | per-item base demand lies in 12..35 |
| Seed.DayMultiplierCases | backend/src/index.ts:62-84 | `DayMultiplier`: the weekday multipliers, all in 0.8..1.5 |
| Seed.WasteMultiplierCases | backend/src/index.ts:91-94 | `WasteMultiplier`: the per-item waste multipliers, all in 1.05..1.15 |
| Seed.Sold | backend/src/index.ts:87-88 | `Math.floor` of demand × multiplier × random factor |
| Seed.Prepared | backend/src/index.ts:96-97 | `Math.ceil` of sold × waste multiplier |
| Seed.GenerateSeed | backend/src/index.ts:53-110 | 60 × 5 records; record k is built from day k / 5 of the sixty days ending today (`Constants.DaysFrom` from 59 days back), item k % 5 and draw k |
| Seed.BuildSeed | backend/src/index.ts:58-112 | the loop over the given sixty days: record k is built from day k / 5, item k % 5 and draw k |
| Seed.SeedSoldBounds | backend/src/index.ts:70-88 | `DemoRecord`: sold lies within the random factor's ±20% of demand, in 0..63 |
| Seed.SeedWasteBounds | backend/src/index.ts:91-110 | `DemoRecord`: prepared ≥ sold, so waste is non-negative |
| Seed.SeedHistorySane | backend/src/index.ts:53-110 | every seeded record is sane, whatever the days |
| Voice.DigitRunEnd | frontend/components/VoiceCommand.tsx:65 | `\d+` ends at the last digit of the run |
| Voice.FindLogMatch | frontend/components/VoiceCommand.tsx:65 | a returned span matches the log-entry pattern |
| Voice.FindLogMatchSpec | frontend/components/VoiceCommand.tsx:65 | no match exactly when no span matches; otherwise the leftmost start, the shortest item and the longest filler |
| Voice.FoundBeatsMatch | frontend/components/VoiceCommand.tsx:65 | every matching span loses to the returned one under the regex's priorities |
| Voice.ParseDigits | frontend/components/VoiceCommand.tsx:69-71 | `parseInt` of a digit run, read as an exact integer, is below 10 to the power of its length |
| Voice.Decide | frontend/components/VoiceCommand.tsx:36-85 | navigation goes only to the dashboard, forecaster, analytics or history page; a chat query carries the text as heard; a log entry comes only from a match of the log pattern, with its parsed counts and item |
| Voice.LoggedMessage | frontend/components/VoiceCommand.tsx:72 | the log feedback shows the two digit runs that read back as the logged counts, and the logged item |
| Voice.Feedback | frontend/components/VoiceCommand.tsx:36-85 | every outcome shows a non-empty message; a log entry's message shows digit runs that parse to the logged counts, and the logged item |
| Voice.Classify | frontend/components/VoiceCommand.tsx:32-86 | the command keeps the original transcript |
| Voice.NavigateRule | frontend/components/VoiceCommand.tsx:36-55 | navigates exactly when the text names "dashboard", "analytics" or "history", or "forecast" without "run"; "dashboard" wins |
| Voice.RunForecastRule | frontend/components/VoiceCommand.tsx:58-62 | runs the forecast exactly on "run" with "forecast" and none of "dashboard", "analytics", "history" |
| Voice.LogEntryRule | frontend/components/VoiceCommand.tsx:65-74 | a log entry exactly when the pattern matches and no page or forecast word appears, carrying the item and both parsed counts |
| Voice.ChatRule | frontend/components/VoiceCommand.tsx:77-85 | chat exactly when no earlier rule and no "help" applies, carrying the text as heard; help exactly when only "help" applies |
| Voice.DecideIgnoresText | frontend/components/VoiceCommand.tsx:84-85 | only the chat fallback depends on the original text |
| Voice.ClassifyIgnoresCase | frontend/components/VoiceCommand.tsx:33 | transcripts that normalise alike give the same action (chat aside) |
| Voice.VoicePanel.constructor | frontend/components/VoiceCommand.tsx:19-23 | not listening, empty transcript and feedback, panel hidden |
| Voice.VoicePanel.ProcessCommand | frontend/components/VoiceCommand.tsx:32-86 | sends exactly the classified command and shows its feedback |
| Voice.VoicePanel.OnStart | frontend/components/VoiceCommand.tsx:97-101 | listening, transcript cleared, "Listening..." feedback |
| Voice.VoicePanel.OnResult | frontend/components/VoiceCommand.tsx:103-112 | shows the transcript, and processes it only when final |
| Voice.VoicePanel.OnError | frontend/components/VoiceCommand.tsx:114-118 | stops listening and shows the error |
| Voice.VoicePanel.OnEnd | frontend/components/VoiceCommand.tsx:120-122 | stops listening, nothing else |
| Voice.VoicePanel.TogglePanel | frontend/components/VoiceCommand.tsx:135 | flips panel visibility only |
| Backend.RegisterReply | backend/src/index.ts:140-152 | 400 on a missing field, 409 on a taken name, otherwise the new user's name |
| Backend.LoginReply | backend/src/index.ts:155-164 | success exactly with both fields, a known user and a matching password; 400 on a missing field |
| Backend.LoginHidesUnknownNames | backend/src/index.ts:158-162 | an unknown name gets the same 401 as a wrong password |
| Backend.BearerToken | backend/src/index.ts:172-175 | 401 "missing token" exactly without a "Bearer " header; otherwise the rest of the header |
| Backend.BearerRoundTrip | backend/src/index.ts:174-175 | "Bearer " + t gives back t |
| Backend.RequireAuth | backend/src/index.ts:172-183 | a missing token or a failed verification each give their 401; success only for a verified bearer token |
| Backend.OwnedPayload | backend/src/index.ts:201 | the stored record's owner is the authenticated user; other fields are copied |
| Backend.OwnerCannotBeSpoofed | backend/src/index.ts:201 | a client-supplied userId has no effect |
| Backend.ForecastInput | backend/src/index.ts:215-227 | 400 without history or menu, 500 without an API key; otherwise the snippet |
| Backend.Snippet | backend/src/index.ts:225-227 | the last min(35, n) records, in order |
| Backend.SnippetOfLongHistory | backend/src/index.ts:225 | older records beyond the last 35 do not affect the snippet |
| Backend.Reconcile | backend/src/index.ts:311-314 | only the item id may change, to the first case-insensitive name match with a non-empty id |
| Backend.ReconcileFirstMatch | backend/src/index.ts:312-313 | the first matching menu entry supplies the id |
| Backend.ReconcileUnknownName | backend/src/index.ts:312-313 | a name matching no menu entry is left unchanged |
| Backend.ReconcileIdempotent | backend/src/index.ts:311-314 | reconciling twice equals reconciling once |
| Backend.ReconcileAll | backend/src/index.ts:311-314 | every prediction is reconciled, in order |
| Backend.ForecastReply | backend/src/index.ts:277-316 | the upstream status on failure (429 with the quota message), 500 for no text or bad JSON; success exactly for parsed predictions |
| Backend.ForecastKeepsPredictions | backend/src/index.ts:311-314 | each returned prediction is the model's own, reconciled |
| Backend.CoordinateOr | backend/src/index.ts:327-328 | a falsy query parameter falls back to the default |
| Backend.Description | backend/src/index.ts:341-363 | "Unknown" exactly for codes outside the table |
| Backend.CodeOrZero | backend/src/index.ts:365 | a missing code reads as 0 |
| Backend.Tomorrow | backend/src/index.ts:366-378 | the second daily value, present exactly when the series has two or more |
| Backend.WeatherReportOf | backend/src/index.ts:368-382 | the reply fields come from the current and the second daily values, with descriptions from the code table |
| Backend.MissingCodeReadsClear | backend/src/index.ts:365 | a missing current code is reported as "Clear sky" |
| Backend.ShortSeriesReadsClear | backend/src/index.ts:366 | a daily series shorter than two reports tomorrow as "Clear sky" |
| Backend.ChatInput | backend/src/index.ts:397-404 | 400 without a message, 500 without an API key; otherwise the message |
| Backend.BuildItemStats | backend/src/index.ts:416-424 | the loop builds exactly the per-item stats table |
| Backend.ItemStatIsSums | backend/src/index.ts:416-424 | `ItemStats`: an item's stats are the waste and sold sums (missing fields as 0) and the count of its records |
| Backend.ItemStatsPartition | backend/src/index.ts:416-424 | `ItemStats`: the counts add up to the number of records and the waste to the total waste |
| Backend.AvgWasteBounds | backend/src/index.ts:413 | `AvgWastePerDay`: the per-record average, to a tenth, lies within the records' waste bounds |
| Backend.Summarize | backend/src/index.ts:407-428 | the record count, the waste, sold and loss totals are the sums over the records, the average is the per-record waste average; each item carries its own sums, the item names are distinct and cover every record's name, and the per-item counts and waste add up to the totals |
| Backend.ItemEntriesAreSums | backend/src/index.ts:416-424 | `ItemStats`: each per-item entry holds the waste and sold sums and the count of its own records, of which there is at least one |
| Backend.ItemNamesDistinctAndComplete | backend/src/index.ts:416-428 | `ItemStats`: the per-item entries name each item once, and every record's item among them |

## Left out

- Network and persistence: `fetch`, Express routing, Mongoose queries, JWT signing and verification, and bcrypt. They appear as parameters (outcomes, `verify`, `known`, `passwordMatches`).
- The sort and limit that the database applies to `GET /records` and to the chat's records query. The model takes the records as the database returns them.
- Voice.ParseDigits: `parseInt` returns a double, so a digit run above 2^53 is rounded in the source (seventeen nines read as 10^17), while the model keeps the exact value; the bound below 10 to the power of the run's length holds only for the exact value.
- App.Shell.RestoreSession: the stored user is kept as its JSON text. `JSON.parse` of a malformed stored user throws inside the mount effect in the source, so the session is not restored; the model does not parse the text and always restores the session when the token is truthy.
- GuardedStatsBounds: the total loss is non-negative only when no record's loss is negative. A sane record bounds its counts, not its loss, and records fetched from the server carry whatever loss they were stored with.
- The Gemini prompt text and the model's behaviour. The model's reply is a parameter, and its JSON parse appears as a parsed or unparseable case.
- The Web Speech API, `setTimeout` and React rendering. `ResetPickup` is the method the timer calls.
- `localStorage` is a map field of the shell, not a browser store.
- The forecaster, AI chat, login and register forms, navbar, landing page and architecture pages. They hold no logic beyond calls to the routes that are modelled.
- Numeric.Fixed1: IEEE double arithmetic is not modelled. Values are exact rationals, so a `toFixed` on a binary fraction that lies just below a half is not reproduced.
- Numeric.Round: values are exact rationals, so a product that IEEE doubles leave just below a half is rounded up here. A custom multiplier of 57% on a base demand of 50 gives 28.499999999999996 in the source, which `Math.round` takes to 28; the model's exact 28.5 gives 29.
- WhatIf.Project: the same rounding gap applies to its adjusted demand (base 50, custom slider 57: 28 in the source, 29 here).
- Constants.SeedDemand: `45 * 1.4` is 62.99999999999999 in doubles, so a weekend base demand of 45 sells 62 in the source and 63 here (also `Constants.SeedRecord`).
- Seed.Prepared: `25 * 1.12` is 28.000000000000004 in doubles, so toast with 25 sold is prepared 29 in the source and 28 here.
- Seed.RecordForBounds: its waste bound `waste < sold × (multiplier − 1) + 1` holds for exact values only. For toast with 25 sold the source's waste is 4, which is not below 25 × 0.12 + 1 = 4.
- Constants.DayOf: the ISO string and the weekday come from one calendar date. The source takes the string from `toISOString` (UTC) and the weekday from `getDay` (local time), which name different dates when the time-zone offset moves the instant across midnight.
- Calendar.DaysAgo: only years 0000 to 9999 are modelled, because `toISOString` writes other years with a sign and six digits. The generators therefore require today to lie at least 14 (`Constants.GenerateHistory`) or 59 (`Seed.GenerateSeed`) days after 0000-01-01.
- Strings.LexLess: compares code points, while JavaScript compares UTF-16 code units. The two orders differ only between a character above U+FFFF and one in U+E000 to U+FFFF. ISO dates are ASCII, so the date sorts are not affected.
- EntryForm.Form.SetPrepared: takes an integer. The source stores `parseInt` of the field, which is NaN once the field is cleared; the model has no NaN.
- EntryForm.Form.SetSold: the same applies; a cleared field gives NaN in the source.
- WhatIf.Project: `toFixed(0)` of a change in (−0.5, 0) prints "-0" in the source (base 201 adjusted to 200). The model's `Fixed0` gives the number 0 and drops the sign.
- Backend.BuildItemStats: item names are plain keys here. The source's `itemStats` is a plain object, so a name inherited from `Object.prototype` misbehaves there. For example, for `[{itemName: "constructor", waste: 1}]` the lookup finds the inherited `constructor` function, and `Object.entries` never lists the name.
- Backend.ItemStatsPartition: its count and waste totals hold for names that are not `Object.prototype` properties (see `Backend.BuildItemStats`).
- Backend.Summarize: lists items in first-appearance order. `Object.entries` would list integer-like names first, in ascending numeric order, and would skip names inherited from `Object.prototype`.
- WhatIf.AccumulateItemAverages: item names are plain keys. In the source `itemAverages` is a plain object, so a name such as "constructor" or "__proto__" reads or replaces an inherited property instead of a fresh entry.
- Strings.ToLower: covers ASCII letters only. There is no Unicode case mapping.
- Analytics.CategoryData: `Object.entries` lists integer-like keys first. The three category names are not integer-like, so insertion order applies.
- Dashboard.TopWaste: item names are assumed not to be integer-like, because `Object.entries` would list those first. They are also assumed not to be `Object.prototype` property names: `wasteMap["constructor"] || 0` reads the inherited function, and the sum becomes a string.
- Analytics.DayOfWeekData: `getDay` is taken in UTC, so the host time-zone shift of a date-only string is not modelled. An unparsable date gives no result; in the source, `data[NaN]` would throw.
- Dashboard.ChartData: dates are sorted by string order. For ISO dates this equals `getTime` order (`Calendar.IsoOrderIsChronological`). The source's comparator gives NaN on invalid dates, which has no defined order.
- HistoryLog.Filtered: the same applies to its newest-first sort.
- WhatIf.Simulator.Slide: requires a value in 50..200, because the browser's range input keeps the slider there. The handler itself does not clamp.
- WhatIf.Project: a percentage change over a base demand of 0 (NaN in the source) is modelled as no value.
- Backend.AvgWastePerDay: only bounds are stated (`Backend.AvgWasteBounds`). The source sends the average to the prompt as text.
- Backend.ForecastReply: failures from the network itself, which the source's catch-all turns into a 500, are not modelled.

## Findings

| source | as written | input that shows it | evidently intended | confidence | as-written member | corrected member |
|---|---|---|---|---|---|---|
| frontend/App.tsx:96-109 | waste percentage and efficiency divide by total prepared without a guard | an empty history (total prepared 0) gives NaN for both | 0% waste and 100% efficiency when nothing was prepared | not executed | App.EmptyHistoryHasNoPercentage | App.GuardedStats |
| frontend/components/WeatherWidget.tsx:42-49 | the rain test `code >= 51 && code <= 82` comes before the snow test `code >= 71 && code <= 77` | code 73 (moderate snow) shows the rain icon | snow codes 71-77 show the snow icon | not executed | Weather.SnowIconUnreachable | Weather.IntendedDiffersOnlyOnSnow |
