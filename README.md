# sharp-shooter in Dafny

A model of the weekly NFL odds collector in sharp-shooter. It covers:

- the schedule that picks one of six weekly snapshots from the local day and hour;
- the filter that keeps today's games, with its Thursday-night rule for games that kick off after midnight UTC;
- the shaping of The Odds API game payloads into one row per game and bookmaker;
- the grouping of player-prop outcomes into one row per player, market and bookmaker;
- the client-side handling of player props: name extraction, line type and the sliding-window rate limiter;
- the historical collector's season table, event filter and request loop, and the historical processor that turns downloaded files into a weekly package;
- the spreadsheet writer: its row layouts, append ranges and overview status updates;
- the weekly workflow that ties these together: it finds or creates the week's spreadsheet, reads which snapshots already exist, collects and writes.

Raw API payloads are typed records (module `Feed`). Cell values are `Cell = Text | Num(real) | Null`, and Python truthiness is modelled where the source tests it. The local "now" is a parameter: a day number counted from 1970-01-01 plus an hour. Every HTTP call and every Google Sheets or Drive call is an input to the model. The model holds the reply each call would return, and the methods report the calls they make as a sequence of steps.

Where the files disagree with each other, the model keeps each file as written and proves the consequences:

- The writer reads game odds under keys such as `spread_line_1`. The collector produces `opening_*` and `final_*` keys. So every odds cell the writer emits for a collector row is blank (`SheetsWriter.CollectorGameRowLosesOdds`), and the same holds for prop lines.
- The template's overview puts status rows 10 to 15 under snapshots 1 to 6. The writer updates rows 11 to 14 for snapshots 1 to 4. The workflow then reads B10:B15. After the writer marks snapshot s, the workflow believes snapshot s + 1 exists (`WeeklyWorkflow.WrittenStatusReadAsNextSnapshot`).
- `collect_weekly_data` in src/data_collector.py calls `get_nfl_games(week_number)`, but `get_nfl_games` in src/odds_api_client.py takes no argument besides `self`. So every collection with a scheduled snapshot raises `TypeError` before its first request (`GameDay.CollectStart`), and no run of the workflow writes or succeeds (`WeeklyWorkflow.AsWrittenRunNeverWrites`). The game selection, the shaping and the writing are modelled as they would run if that call returned, with the games reply and the collector's result as inputs.

The code and the design description differ in two places, and the model follows the code:

- The described schedule has a fallback that maps a Monday before 15:00 to snapshot 6. In `src/data_collector.py` that fallback branch sits behind a `day_of_week >= 1` guard, so it never runs on Monday. The current snapshot on a Monday before 15:00 is therefore none (`Schedule.MondayFallbackUnreachable`).
- The description asks for upserts keyed by row identity. The writer appends after the rows already present (`SheetsWriter.AppendSpanCovers`).

## Model

| member | source | states |
|---|---|---|
| Schedule.WindowSnapshot | src/data_collector.py:509-534 | a collection window, when one is open, names a snapshot between 1 and 6 |
| Schedule.CurrentSnapshot | src/data_collector.py:501-557 | Tuesday gives 1, Wednesday and Thursday 2, Friday 3, Saturday 4 and Sunday 5 at any hour; Monday gives 6 from 15:00 and none before; none exactly on Monday before 15:00 |
| Schedule.WindowsAreHonoured | src/data_collector.py:509-534 | whenever a window is open, the current snapshot is that window's snapshot |
| Schedule.MondayFallbackUnreachable | src/data_collector.py:539-553 | the fallback gives none for Monday: its Monday branch sits behind the `day_of_week >= 1` guard |
| Schedule.HourIrrelevantExceptMonday | src/data_collector.py:509-553 | on any day but Monday the hour does not change the snapshot, which is the fallback's |
| Schedule.NextCollectionLabel | src/data_collector.py:559-581 | the label is one of the seven texts; Monday gives the Tuesday label; the Monday label comes exactly on Sunday from 13:00, and the new-week label exactly on Sunday from 08:00 to 12:59 |
| Schedule.UnscheduledPointsToTuesday | src/data_collector.py:566-567 | whenever no snapshot is due, the label points to Tuesday 10:00 |
| Schedule.ShouldCollectProps | src/data_collector.py:387-391 | props are collected exactly for snapshots 2 and above |
| Schedule.PropsSkippedOnlyOnTuesday | src/data_collector.py:387-391 | for a snapshot chosen from the clock, props are skipped exactly on Tuesday |
| GameDay.FilterGamesForToday | src/data_collector.py:450-499 | the loop keeps exactly the games that play today, in input order |
| GameDay.FilterKeepsExactlyTodaysGames | src/data_collector.py:459-492 | the kept games are a subsequence of the input, and a game is kept exactly when it plays today: a non-empty kickoff that parses, dated today, or on a Thursday dated the next day before 06:00 |
| GameDay.OrdinaryDay | src/data_collector.py:485-487 | on a day other than Thursday a game is kept exactly when its kickoff parses and is dated today |
| GameDay.ZuluSuffix | src/data_collector.py:467-470 | a kickoff ending in `Z` parses as the same text with `+00:00` |
| GameDay.SeasonOpenerIsThursday | src/data_collector.py:453-454 | 2024-09-05 is day 19971 and a Thursday |
| GameDay.ThursdayNightFootball | src/data_collector.py:478-483 | on Thursday 2024-09-05 a game at 2024-09-06T00:20:00Z is kept |
| GameDay.CollectStart | src/data_collector.py:45-63 | the not-scheduled reply comes exactly when neither a non-zero forced snapshot nor the clock gives one; otherwise the collection raises, `KeyError` for a snapshot without a schedule entry and `TypeError` at the games request, on the forced snapshot when there is one |
| GameDay.ScheduledCollectionRaises | src/data_collector.py:46-63 | with snapshots 1 to 6 in the schedule, every collection that gets past the not-scheduled check raises `TypeError`, on the forced snapshot when it is scheduled |
| GameDay.SelectionBySnapshot | src/data_collector.py:72-90 | snapshot 1 keeps the week's games; for any other snapshot, no game plays today exactly when the collection stops with the no-games reply or with the listing's exception, the exception comes exactly when one of the first five kickoffs does not parse, and otherwise exactly today's games are kept in order |
| GameDay.EmptyKickoffRaisesInListing | src/data_collector.py:80-90 | when no game plays today and the week's first game has no kickoff, the listing of the first five games raises instead of giving the "No games scheduled for today" reply |
| GameDay.PropsGamesNeverEmpty | src/data_collector.py:103-114 | when games were selected and props are due, the props games are the selected games and are not empty, so the "no games available for player props" failure cannot occur |
| Calendar.NextDate | src/data_collector.py:482 | the next date stays in the same year or is 1 January of the next year, and is a valid date below year 9999 |
| Calendar.DayNumberNext | src/data_collector.py:482 | the day number of the next date is one more than that of the date |
| Calendar.Weekday | src/data_collector.py:504 | the weekday lies in 0 to 6 |
| Calendar.WeekdayNext | src/data_collector.py:504 | the weekday of the next date is the following weekday, Sunday wrapping to Monday |
| Calendar.ParseIsoDateTime | src/data_collector.py:466-470 | a parsed stamp has a valid date, hour, minute and second in range, an offset strictly within one day, and came from text of length 10, 19 or 25 |
| Calendar.ParseExample | src/data_collector.py:468 | `2024-09-06T00:20:00+00:00` parses to 2024-09-06 at 00:20:00 with offset zero |
| GameShaper.TeamCode | src/data_collector.py:365-366 | a team code has at most four characters and no space |
| GameShaper.TeamCodeHasNoUnderscore | src/data_collector.py:365-366 | a team name without `_` gives a code without `_` |
| GameShaper.GameIdParts | src/data_collector.py:363-368 | split on `_`, a game id gives back `NFL`, `2025`, the kickoff date, the away code and the home code, whenever date and team names hold no `_` |
| GameShaper.FoldSpreads | src/data_collector.py:258-271 | after a spreads market the line and home odds are those of the last outcome named after the home team, the away odds those of the last one named after the away team, and each is unchanged when there is none |
| GameShaper.FoldTotals | src/data_collector.py:273-284 | after a totals market the line and over odds are those of the last outcome whose name contains "Over", the under odds those of the last one containing "Under" but not "Over" |
| GameShaper.FoldMoneyline | src/data_collector.py:286-295 | after an h2h market each side's price is that of the last outcome named after that team |
| GameShaper.FilledColumns | src/data_collector.py:255-295 | after all markets each column holds the last matching outcome over every market of its key, and the collection date is set exactly when some spreads market has outcomes |
| GameShaper.ShapeRow | src/data_collector.py:224-297 | a row carries the game's id, kickoff, teams and the bookmaker's title, and leaves the other snapshot's columns blank |
| GameShaper.BookmakerRowSource | src/data_collector.py:219-223 | every row of a game comes from one of its bookmakers that has markets |
| GameShaper.BookmakerRowProduced | src/data_collector.py:219-299 | every bookmaker that has markets gives a row |
| GameShaper.GameRowSource | src/data_collector.py:204-299 | every output row comes from a game and one of its bookmakers that has markets |
| GameShaper.GameRowProduced | src/data_collector.py:204-299 | every game and bookmaker pair whose bookmaker has markets is in the output |
| GameShaper.RowCountBound | src/data_collector.py:215-223 | there are at most as many rows as bookmakers over all games |
| GameShaper.BookmakerRowBound | src/data_collector.py:219-223 | a game gives at most one row per bookmaker |
| GameShaper.FillSnapshot | src/data_collector.py:255-295 | the market and outcome loops give the columns of the fold over the markets |
| GameShaper.ProcessGamesForSnapshot | src/data_collector.py:200-301 | the loop over games gives exactly the reference rows |
| GameShaper.ProcessBookmakers | src/data_collector.py:219-297 | the loop over one game's bookmakers gives exactly the reference rows of that game |
| PropShaper.PositionByKeyword | src/data_collector.py:371-380 | the position is one of four; QB exactly when the lower-cased market contains "pass", and Unknown exactly when it contains none of "pass", "rush" and "receiv" |
| PropShaper.SeparateAnytimeTdProps | src/data_collector.py:393-404 | the regular list is the props not of the `Anytime TD` market and the second list those of it, each in input order |
| PropShaper.SeparationIsAPartition | src/data_collector.py:393-404 | the two lists are subsequences of the input whose lengths add up to its length |
| PropShaper.GroupProps | src/data_collector.py:308-331 | the grouping loop builds the reference key order and accumulators |
| PropShaper.GroupedKeys | src/data_collector.py:308-331 | the key order has no repeats, holds exactly the dictionary's keys, and a key is present exactly when some prop has it |
| PropShaper.GroupedValues | src/data_collector.py:311-331 | a key's accumulator has the identity of its first prop and the lines and odds of its last Over and last Under prop |
| PropShaper.PropRows | src/data_collector.py:334-359 | one rendered row per key, in key order |
| PropShaper.TdRows | src/data_collector.py:433-447 | one rendered touchdown row per key, in key order |
| PropShaper.ProcessPropsAsWritten | src/data_collector.py:303-361 | the loops keyed by the `_`-joined string give exactly the rows of the string-keyed grouping |
| PropShaper.RenderAll | src/data_collector.py:334-359 | the rendering loop gives one row per dictionary entry, in insertion order |
| PropShaper.RenderAllTd | src/data_collector.py:433-447 | the touchdown rendering loop gives one row per dictionary entry, in insertion order |
| PropShaper.ProcessPropsForSnapshot | src/data_collector.py:303-361 | the loops keyed by the (player, market, bookmaker) triple give exactly the rows of that grouping |
| PropShaper.ProcessAnytimeTdProps | src/data_collector.py:406-449 | the loops keyed by the (player, bookmaker) pair give exactly the rows of that grouping |
| PropShaper.ProcessAnytimeTdPropsAsWritten | src/data_collector.py:406-449 | the loops keyed by the `_`-joined string give exactly the rows of the string-keyed grouping |
| PropShaper.RowKeyIsGroupKey | src/data_collector.py:334-340 | the i-th prop row names the i-th triple of the grouping |
| PropShaper.OneRowPerTriple | src/data_collector.py:311-313 | every triple of the input gets exactly one row, carrying the last Over and last Under line and odds of that triple, empty where there is none |
| PropShaper.RowKeysAreOrder | src/data_collector.py:334 | the i-th prop row names the i-th key of the grouping's insertion order |
| PropShaper.RowsCoverProps | src/data_collector.py:310-331 | every prop's triple has a row |
| PropShaper.RowsCarryLastLines | src/data_collector.py:325-347 | a row's over and under lines and odds are those of the last Over and last Under prop of its triple, and empty when there is none |
| PropShaper.TdRowKeyIsGroupKey | src/data_collector.py:433-438 | the i-th touchdown row names the i-th pair of the grouping |
| PropShaper.OneTdRowPerPlayerBookmaker | src/data_collector.py:414-415 | every player and bookmaker pair of the input gets exactly one touchdown row |
| PropShaper.TdRowKeysAreOrder | src/data_collector.py:433 | the i-th touchdown row names the i-th key of the grouping's insertion order |
| PropShaper.TdRowsCoverProps | src/data_collector.py:411-431 | every touchdown prop's pair has a row |
| PropShaper.TdRowsCarryLastOdds | src/data_collector.py:429-438 | a touchdown row's odds are those of the last Over prop of its pair, and empty when there is none |
| PropShaper.StringKeyAmbiguous | src/data_collector.py:311 | a player `x_y` with market `m` and a player `x` with market `y_m` at one bookmaker get one key string |
| PropShaper.TdStringKeyAmbiguous | src/data_collector.py:414 | a player `x_y` at bookmaker `b` and a player `x` at bookmaker `y_b` get one key string |
| PropShaper.StringKeyMergesTriples | src/data_collector.py:311-313 | for two such props the string-keyed grouping gives one row, with the first prop's identity and the second's line, where the triple grouping gives two |
| PropShaper.TdStringKeyMergesPairs | src/data_collector.py:414-415 | for two such touchdown props the string-keyed grouping gives one row where the pair grouping gives two |
| OddsClient.DisplayNameIsTableGet | src/odds_api_client.py:227-237 | a key of the six-entry table gets its display name, and any other key is returned unchanged |
| OddsClient.DisplayNameRoundTrip | src/odds_api_client.py:229-236 | the table's display names lead back to their keys |
| OddsClient.ExtractPlayerName | src/odds_api_client.py:190-200 | an outcome with neither description nor name gives no player name |
| OddsClient.DescriptionNameTrimmed | src/odds_api_client.py:192-193 | a name taken from the description has no whitespace at either end |
| OddsClient.DescriptionWithoutMarkers | src/odds_api_client.py:192-193 | a description without " Over" and " Under" gives itself, stripped |
| OddsClient.NameFallback | src/odds_api_client.py:194-198 | without a description, a one-word name gives no player, and a longer name is the player, a space and one last word |
| OddsClient.LineTypeByName | src/odds_api_client.py:205-210 | the line type is Over exactly when the name contains "Over", and Under exactly when it contains "Under" but not "Over" |
| OddsClient.ProcessPlayerProps | src/odds_api_client.py:152-225 | the four nested loops give exactly the reference records |
| OddsClient.MarketsLoop | src/odds_api_client.py:175-223 | the loops over one bookmaker's markets and outcomes give exactly the reference records |
| OddsClient.RecordsOfOutcomes | src/odds_api_client.py:183-223 | each record of a market has a player, the event's identity, the bookmaker and the market's display name; there are at most as many records as outcomes |
| OddsClient.RecordsOfMarkets | src/odds_api_client.py:175-223 | each record of a bookmaker's markets has a player and the requested market's display name |
| OddsClient.RecordsOfBookmakers | src/odds_api_client.py:167-223 | each record of an event's bookmakers has a player, the event's id and the requested market's display name |
| OddsClient.RecordsHavePlayersAndMarket | src/odds_api_client.py:160-223 | no record lacks a player name, and every record carries the requested market's display name |
| OddsClient.OtherMarketsIgnored | src/odds_api_client.py:175-181 | markets of other keys and non-dictionary markets add nothing |
| OddsClient.NoRequestedMarketNoProps | src/odds_api_client.py:179-181 | with no market of the requested key there are no records |
| RateLimit.RecentKeepsExactlyTheWindow | src/odds_api_client.py:276-277 | the pruned list is a subsequence holding exactly the times less than 60 seconds before now |
| RateLimit.RecentIdempotent | src/odds_api_client.py:276-277 | pruning twice at one instant prunes nothing more |
| RateLimit.RecentLater | src/odds_api_client.py:276-277 | pruning at an instant and then at a later one is pruning at the later one |
| RateLimit.RateLimiter.ForOddsApi | src/odds_api_client.py:31-33 | the live client allows 500 requests a minute and starts with no times and no requests |
| RateLimit.RateLimiter.CheckRateLimit | src/odds_api_client.py:272-280 | the times become the pruned ones, the request count is unchanged, and the request is allowed exactly when fewer than the limit remain |
| RateLimit.RateLimiter.TrackRequest | src/odds_api_client.py:282-285 | the request time is appended and the request count goes up by one |
| RateLimit.TrackedRequestCounts | src/odds_api_client.py:272-285 | a tracked request still counts against the limit for the next 60 seconds |
| RateLimit.CheckIsStable | src/odds_api_client.py:272-280 | a second check at the same instant gives the same answer |
| RateLimit.RateLimiter.ForHistoricalApi | src/historical_data_collector.py:35-37 | the historical client allows 100 requests a minute and starts with no times and no requests |
| HistoricalCollector.SpansAsWritten | src/historical_data_collector.py:62 | the week span is six days, 23 hours, 59 minutes and 59 seconds, one second short of a week, and the day span one second short of a day |
| HistoricalCollector.SeasonDateRanges | src/historical_data_collector.py:51-92 | the method builds the reference season table |
| HistoricalCollector.OpenerDay | src/historical_data_collector.py:57 | 2024-09-05 is day 19971 |
| HistoricalCollector.January2025Days | src/historical_data_collector.py:67-79 | the day numbers of 13, 15, 18, 19 and 26 January 2025 |
| HistoricalCollector.LaterDays2025 | src/historical_data_collector.py:82-88 | the day numbers of 9 February and 4 September 2025 |
| HistoricalCollector.PostseasonDays | src/historical_data_collector.py:65-90 | the five later periods with their names, first instants and last instants written out |
| HistoricalCollector.RegularWeekDays | src/historical_data_collector.py:59-63 | week k starts at midnight of day 19971 + 7(k - 1), a Thursday, ends one second before week k + 1, and is named `2024_Week_k` |
| HistoricalCollector.SeasonTableShape | src/historical_data_collector.py:51-92 | the table has 23 entries: the 18 regular weeks in order, then the wild card, divisional, conference, Super Bowl and 2025 week 1 |
| HistoricalCollector.WeeksStartOnThursdayMidnight | src/historical_data_collector.py:55-89 | the regular weeks and 2025 week 1 start at UTC midnight on a Thursday |
| HistoricalCollector.TableChained | src/historical_data_collector.py:51-92 | each period ends after it starts and before the next one starts |
| HistoricalCollector.SeasonInOrder | src/historical_data_collector.py:51-92 | every period ends after it starts and before any later period starts |
| HistoricalCollector.RegularWeekNumbers | src/historical_data_processor.py:82-87 | the processor reads week number k from the name of regular week k |
| HistoricalCollector.PostseasonWeekNumbers | src/historical_data_processor.py:82-87 | the processor reads week number 1 from every postseason name and from `2025_Week_1` |
| HistoricalCollector.FilterEventsInRange | src/historical_data_collector.py:122-140 | the filter loop keeps exactly the events in range, in order |
| HistoricalCollector.RangeFilterKeepsExactly | src/historical_data_collector.py:122-140 | an event is kept exactly when it is in the input and in range, and the kept events are a subsequence |
| HistoricalCollector.ZuluIsUtc | src/historical_data_collector.py:128 | a kickoff ending in `Z` is the same instant as with `+00:00` |
| HistoricalCollector.NaiveNeverInRange | src/historical_data_collector.py:128-139 | a kickoff without an offset is never in range, because it cannot be compared with the aware range |
| HistoricalCollector.EventsInPeriod | src/historical_data_collector.py:94-155 | a failed request gives none, and otherwise exactly the events of the reply that are in range |
| HistoricalCollector.HalfIsNearest | src/historical_data_collector.py:209 | halving a span of microseconds rounds to the nearest microsecond, ties to even |
| HistoricalCollector.MidWithin | src/historical_data_collector.py:209 | the middle of a period lies within it, at most half a microsecond from the exact midpoint |
| HistoricalCollector.TableMidsWithin | src/historical_data_collector.py:209 | every period of the table is asked for events at an instant inside it, 3.5 days minus half a second into a regular week |
| HistoricalCollector.OddsTimeBeforeKickoff | src/historical_data_collector.py:236-248 | for a parsed kickoff the odds instant is before now and before the kickoff: two hours before a past kickoff, else the earlier of an hour ago and a day before the kickoff |
| HistoricalCollector.Limited | src/historical_data_collector.py:220-223 | a positive limit keeps the first events up to it, and no limit or zero keeps all |
| HistoricalCollector.OddsRequests | src/historical_data_collector.py:225-260 | there are at most as many odds requests as events |
| HistoricalCollector.Answered | src/historical_data_collector.py:262-265 | at most as many requests answered as made |
| HistoricalCollector.CollectPeriod | src/historical_data_collector.py:193-272 | the method returns the reference summary of the period |
| HistoricalCollector.CollectOdds | src/historical_data_collector.py:225-267 | the loop over events counts exactly the answered reference requests |
| HistoricalCollector.NoEventsReported | src/historical_data_collector.py:212-215 | the summary names the period and its bounds, and reports the "No events found" error exactly when the request failed or no event is in range, with both counts zero |
| HistoricalCollector.CountsBounded | src/historical_data_collector.py:217-270 | the odds count never exceeds the events count, nor a positive limit |
| HistoricalCollector.RequestsBeforeKickoff | src/historical_data_collector.py:225-260 | each request's datetime is for an event in range with its id, before now and before that event's kickoff (the text sent is that datetime's wall-clock fields with a literal `Z`, see Left out) |
| HistoricalCollector.CollectionAsksBeforeKickoff | src/historical_data_collector.py:217-260 | every odds request of a collection has an id and an instant before now |
| HistoricalProcessor.EventIndex | src/historical_data_processor.py:43-51 | the index of the events of the files is a well-formed insertion-ordered dictionary |
| HistoricalProcessor.StoreEvents | src/historical_data_processor.py:48-51 | storing a file's events after the earlier ones gives the index of all of them |
| HistoricalProcessor.IndexEventFiles | src/historical_data_processor.py:43-51 | the loop over event files builds the index of their events |
| HistoricalProcessor.EventsKeyedById | src/historical_data_processor.py:48-51 | an id is a key exactly when it is non-empty and some event has it |
| HistoricalProcessor.LastEventWins | src/historical_data_processor.py:48-51 | the event kept under an id is the last event with that id |
| HistoricalProcessor.FirstMatch | src/historical_data_processor.py:66-69 | the result is the first event id starting with the prefix, and none exactly when no id does |
| HistoricalProcessor.StemPrefixIsLastPart | src/historical_data_processor.py:60-63 | the prefix read from a file name has no `_`, and the name ends with `_` and the prefix |
| HistoricalProcessor.MatchedOddsFromFiles | src/historical_data_processor.py:54-69 | every matched id is an event id, and its odds are those of a file matched to it |
| HistoricalProcessor.FindFirstMatch | src/historical_data_processor.py:66-69 | the search loop returns the first matching id |
| HistoricalProcessor.MatchOddsFiles | src/historical_data_processor.py:54-69 | the loop over odds files builds the reference odds map |
| HistoricalProcessor.EventUnderItsId | src/historical_data_processor.py:48-51 | the event stored under an id has that id |
| HistoricalProcessor.WeekNumber | src/historical_data_processor.py:80-86 | a name without `Week_` gives week 1 |
| HistoricalProcessor.WeekNumberOfName | src/historical_data_processor.py:82-85 | a name `<head>Week_<n>` whose head has no `W` gives n |
| HistoricalProcessor.ParseWeekNumber | src/historical_data_processor.py:80-86 | the parse with its try and except gives the reference week number |
| HistoricalProcessor.MarketsKeyedByKey | src/historical_data_processor.py:156-162 | a market key is present exactly when some market has it, and its entry carries that key |
| HistoricalProcessor.LaterMarketOverwrites | src/historical_data_processor.py:156-162 | the entry under a key holds the outcomes of the last market with that key |
| HistoricalProcessor.GameLineOf | src/historical_data_processor.py:133-166 | a game line carries the event's identity; it has no bookmakers without odds, and otherwise one per bookmaker of the odds with its title |
| HistoricalProcessor.ProcessGameLines | src/historical_data_processor.py:133-166 | the loops give exactly the reference game line |
| HistoricalProcessor.HistoricalNameTrimmed | src/historical_data_processor.py:190-193 | a player name has no whitespace at either end |
| HistoricalProcessor.HistoricalLineTypeVsClient | src/historical_data_processor.py:234-245 | the line type is the live client's, except that in the `player_anytime_td` market a name with neither word is Over |
| HistoricalProcessor.FromOutcomes | src/historical_data_processor.py:190-196 | a market gives at most one prop per outcome |
| HistoricalProcessor.FromOutcomesMadeFor | src/historical_data_processor.py:190-212 | each prop of a market names a player and carries the event's id, the bookmaker and the market's display name |
| HistoricalProcessor.FromMarketsOfEvent | src/historical_data_processor.py:185-218 | every prop of a bookmaker belongs to the event, and the touchdown list holds only `Anytime TD` props |
| HistoricalProcessor.FromBookmakersOfEvent | src/historical_data_processor.py:181-218 | every prop of an event's bookmakers belongs to the event, and the touchdown list holds only `Anytime TD` props |
| HistoricalProcessor.AddOutcomeProps | src/historical_data_processor.py:190-218 | the outcome loop appends a market's props to the list its key selects |
| HistoricalProcessor.AddMarketProps | src/historical_data_processor.py:186-218 | the market loop appends a bookmaker's props after those gathered so far |
| HistoricalProcessor.ProcessPlayerProps | src/historical_data_processor.py:168-220 | the loops give exactly the reference regular and touchdown props |
| HistoricalProcessor.PropsRoutedByMarketKey | src/historical_data_processor.py:214-218 | the touchdown list holds exactly the props of `player_anytime_td` markets and the regular list those of all other markets, in order |
| HistoricalProcessor.PlayerNameAsClient | src/historical_data_processor.py:191-193 | with a description, the player name is the live client's |
| HistoricalProcessor.GamesOf | src/historical_data_processor.py:93-99 | one game line per event |
| HistoricalProcessor.GameLineAt | src/historical_data_processor.py:93-99 | the i-th game line is that of the i-th event with its odds |
| HistoricalProcessor.PropsComeFromGamesWithOdds | src/historical_data_processor.py:101-105 | every prop belongs to an event that has odds, and the touchdown list holds only `Anytime TD` props |
| HistoricalProcessor.PackageCounts | src/historical_data_processor.py:108-118 | the package is snapshot 1 of the week its name gives, described as historical data of the week, and its counts are the lengths of its lists |
| HistoricalProcessor.ConvertGame | src/historical_data_processor.py:94-105 | one pass of the loop gives the event's game line and props |
| HistoricalProcessor.ConvertToSheetsFormat | src/historical_data_processor.py:78-131 | the method builds the reference package |
| HistoricalProcessor.ProcessWeekData | src/historical_data_processor.py:19-76 | a week without event files gives none, and otherwise the package of the indexed events and matched odds |
| HistoricalProcessor.WeekPackageShape | src/historical_data_processor.py:19-131 | each indexed event gets one game line, in index order and under its own id, and every prop comes from an event with matched odds |
| SheetsWriter.GameRowLayout | src/sheets_writer.py:209-233 | a game row has 41 cells: five identity columns, then the spread, total and moneyline columns of snapshots 1 to 4 under keys ending in the snapshot number |
| SheetsWriter.PropRowLayout | src/sheets_writer.py:235-260 | a prop row has 32 cells: seven identity columns, five columns for each of snapshots 1 to 4, and five reference columns that default to "N/A" |
| SheetsWriter.NotACollectorGameKey | src/data_collector.py:207-250 | no key ending in a digit is a key of a collector game row |
| SheetsWriter.CollectorGameRowLosesOdds | src/sheets_writer.py:209-233 | a collector game row reaches the sheet with its five identity cells and every odds cell empty |
| SheetsWriter.NotACollectorPropKey | src/data_collector.py:337-359 | no key ending in a digit is a key of a collector prop row |
| SheetsWriter.CollectorPropRowLosesLines | src/sheets_writer.py:235-260 | a collector prop row reaches the sheet with its identity cells, twenty empty snapshot cells and "N/A" reference cells |
| SheetsWriter.AppendSpanCovers | src/sheets_writer.py:124-128 | a non-empty append starts on the row after the existing rows and covers exactly as many rows as are written |
| SheetsWriter.AppendsAreContiguous | src/sheets_writer.py:124-126 | a second append starts right after the rows of the first |
| SheetsWriter.Reported | src/sheets_writer.py:142-156 | a successful write reports the reply's updated rows, or 0, and no error; a failed one reports 0 rows and one error |
| SheetsWriter.SendRows | src/sheets_writer.py:121-156 | no rows means no request and nothing written; otherwise one update on the append range with those rows |
| SheetsWriter.GameSheetRows | src/sheets_writer.py:116-119 | one sheet row per game |
| SheetsWriter.PropSheetRows | src/sheets_writer.py:167-170 | one sheet row per prop |
| SheetsWriter.WriteGameLines | src/sheets_writer.py:107-156 | no games means no request; otherwise one update after the existing rows, or after row 0 when the read fails, holding the rows of the games |
| SheetsWriter.WritePlayerProps | src/sheets_writer.py:158-207 | no props means no request; otherwise one update after the existing rows, or after row 0 when the read fails, holding the rows of the props |
| SheetsWriter.GameRequestFits | src/sheets_writer.py:116-128 | a game-lines request covers one row per game, each of 41 cells |
| SheetsWriter.PropRequestFits | src/sheets_writer.py:167-179 | a player-props request covers one row per prop, each of 32 cells |
| SheetsWriter.StatusRow | src/sheets_writer.py:287-294 | a status row exists exactly for snapshots 1 to 4, and it is row snapshot + 10 |
| SheetsWriter.OverviewUpdates | src/sheets_writer.py:277-329 | without a status row, the two summary cells; with one, the status cell on row snapshot + 10 first, followed by the summary cells unless the status update fails |
| SheetsWriter.WriteCollectionData | src/sheets_writer.py:38-105 | the method returns the reference outcome and sends the reference updates |
| SheetsWriter.WrittenCounts | src/sheets_writer.py:60-83 | a complete file reports its week and snapshot, 0 rows for an empty list, and the game errors before the prop errors, at most two |
| SheetsWriter.MissingKeySendsNothing | src/sheets_writer.py:53-58 | a file lacking a key read before the writes fails with that key's error and sends nothing |
| SheetsWriter.MissingTimestampFailsAfterRows | src/sheets_writer.py:69-105 | a file without `collection_timestamp` fails with that key's error after its game and prop rows were sent |
| SheetsWriter.LateSnapshotsHaveNoStatus | src/sheets_writer.py:294-314 | snapshots 5 and 6 send the rows and then only the two summary cells |
| WeeklyWorkflow.WeeklyFileName | src/weekly_workflow.py:149 | the name starts with `Week_`, ends with `_NFL_Betting_2025`, and is exactly as long as prefix, number and suffix |
| WeeklyWorkflow.WeeklyFileNameWeek | src/weekly_workflow.py:149 | the text between prefix and suffix parses back to the week number |
| WeeklyWorkflow.WeeklyFileNamesDiffer | src/weekly_workflow.py:149 | different weeks get different file names |
| WeeklyWorkflow.WeeklySpreadsheet | src/weekly_workflow.py:147-198 | the first file found under the name, else the copy's id when the search fails or finds nothing |
| WeeklyWorkflow.ExistingSnapshotsExactly | src/weekly_workflow.py:215-219 | snapshot k is reported exactly when row k - 1 of the read range starts with a status that contains "Collected" and is not "Not Collected" |
| WeeklyWorkflow.ExistingSnapshotsIncreasing | src/weekly_workflow.py:213-221 | the reported snapshots are strictly increasing and lie in 1 to the number of rows read |
| WeeklyWorkflow.CheckExistingSnapshots | src/weekly_workflow.py:200-225 | a failed read reports no snapshots; otherwise the loop reports the reference snapshots |
| WeeklyWorkflow.ReadStatusRange | src/weekly_workflow.py:206-212 | the read of B10:B15 gives six rows |
| WeeklyWorkflow.TemplateStatusColumn | src/template_builder.py:103-108 | a fresh template has the status cells of rows 10 to 15, and only those |
| WeeklyWorkflow.FreshTemplateHasNoSnapshots | src/weekly_workflow.py:206-219 | a fresh template reports no existing snapshot |
| WeeklyWorkflow.StatusTextIsCollected | src/sheets_writer.py:284 | the writer's status text counts as collected |
| WeeklyWorkflow.WrittenStatusReadAsNextSnapshot | src/sheets_writer.py:287-295 | after the writer marks snapshot s on a fresh template, the run reports exactly snapshot s + 1 as existing |
| WeeklyWorkflow.ExecuteWeeklyCollection | src/weekly_workflow.py:47-145 | the method returns the reference result and makes the reference calls, in order; an exception the collector raises ends the run uncaught |
| WeeklyWorkflow.CollectorAsWritten | src/data_collector.py:45-63 | the collector as written never returns collected data, and for a non-zero scheduled snapshot it raises `TypeError` |
| WeeklyWorkflow.AsWrittenRunNeverWrites | src/weekly_workflow.py:95-104 | with the collector as written, no run succeeds or fails at writing, none calls the writer, and a run that reaches the collection step for a snapshot other than 0 ends in `TypeError` |
| WeeklyWorkflow.UnscheduledStopsAtDetect | src/weekly_workflow.py:62-69 | with no requested snapshot and none due, the run calls only the clock check and names Tuesday 10:00 as the next window |
| WeeklyWorkflow.RequestedSnapshotSkipsDetect | src/weekly_workflow.py:62-63 | a requested snapshot never consults the clock and never reports "not scheduled" |
| WeeklyWorkflow.ExistingSnapshotIsNotCollected | src/weekly_workflow.py:85-94 | the run stops as already collected exactly when the target is among the existing snapshots, and then neither collects nor writes |
| WeeklyWorkflow.FailuresAreTagged | src/weekly_workflow.py:96-116 | a failure after the spreadsheet step is at collection exactly when the collector fails, with its error, and at writing exactly when the writer fails |
| WeeklyWorkflow.SpreadsheetFailureIsTagged | src/weekly_workflow.py:75-82 | a missing or empty spreadsheet id fails at the spreadsheet step after the lookup alone |
| WeeklyWorkflow.SuccessCopiesCounts | src/weekly_workflow.py:119-133 | a successful run reports the collector's snapshot and counts, the writer's counts, the spreadsheet id, 0 touchdown props written, and made the check, collect and write calls |
| WeeklyWorkflow.WriteErrorsStillSucceed | src/weekly_workflow.py:108-116 | row errors the writer reports do not fail the run |

## Left out

- HTTP requests, `time.sleep`, printing, logging and file and JSON I/O are not modelled. Replies and loaded files are inputs, and the data file reaches the writer already loaded.
- OAuth and the Google Sheets and Drive calls (src/oauth_auth.py, src/sheets_template.py) are not modelled. Each call's reply is an input, and the methods record the calls they make.
- `_move_to_same_folder` and `_remove_dummy_data` in src/weekly_workflow.py are left out: their errors are swallowed and they do not affect any result.
- The second `_check_existing_snapshots` call inside the spreadsheet lookup of src/weekly_workflow.py is left out; it only prints.
- config.py is not part of this model; tab names and the collection schedule are parameters.
- `collect_full_historical_dataset`, `get_weekly_file_url` and `list_weekly_files` are left out; they only loop over or list what the modelled operations produce.
- Of `collect_weekly_data` the model covers the game selection and the decision to collect props. The per-game prop requests and the final results dictionary are covered by the client and shaper operations rather than as one function.
- The formatting of the template (colours, widths, frozen rows) in src/template_builder.py is left out; only the overview status column is modelled.
- Calendar.ParseIsoDateTime: accepts only the forms the feeds use (`YYYY-MM-DD`, `YYYY-MM-DDTHH:MM:SS`, optionally followed by `+HH:MM` or `-HH:MM`), not every form `fromisoformat` accepts.
- The anytime-touchdown rows are not written to any sheet: src/sheets_writer.py never reads `anytime_td_props_data`, and the model follows it.
- GameDay.SelectGames: it assumes the games request of src/data_collector.py:63 returns, which as written it never does (it raises `TypeError`, see `GameDay.CollectStart`); the games reply is an input. A missing `away_team` or `home_team` in the listing at src/data_collector.py:83-85 raises `KeyError` in the source; the model reads missing names as empty text and does not capture it.
- WeeklyWorkflow.ExecuteWeeklyCollection: the collector's result is an input, so the `Collected` outcome it accepts is one the collector as written never returns; `WeeklyWorkflow.AsWrittenRunNeverWrites` states what happens instead. `SuccessCopiesCounts`, `FailuresAreTagged` and `WriteErrorsStillSucceed` describe that assumed path.
- GameShaper.TeamCode: case mapping is ASCII-only (`Text.Upper`), so team names are taken to be ASCII. Python's `str.upper()` maps other letters too and can lengthen the text (`ß` gives `SS`), and then the bound of four characters does not hold for the source.
- HistoricalCollector.RequestsBeforeKickoff: the instant is the datetime passed to the request. The request text is written with `strftime('%Y-%m-%dT%H:%M:%SZ')`, which keeps the wall-clock fields, appends a literal `Z` and drops microseconds, so for a kickoff with a non-zero offset the instant sent is not the one proved.
- Exceptions other than the API and Sheets HTTP errors are not modelled.
- Sheet cells are modelled as strings, and the Sheets API's trimming of trailing empty rows in a read is not modelled.
- `time.time()` is modelled as an exact real number, and `datetime.now()` as a parameter (day number and hour).

## Findings

| source | as written | input that shows it | evidently intended | confidence | as-written member | corrected member |
|---|---|---|---|---|---|---|
| src/data_collector.py:311-313 | props are grouped under the string `f"{player}_{market}_{bookmaker}"` | players `A_B` and `A`, markets `M` and `B_M`, one bookmaker: both give `A_B_M_bk` | one row per distinct (player, market, bookmaker) triple | not executed | PropShaper.StringKeyMergesTriples | PropShaper.OneRowPerTriple |
| src/data_collector.py:414-415 | touchdown props are grouped under the string `f"{player}_{bookmaker}"` | players `A_B` and `A`, bookmakers `B` and `B_B`: both give `A_B_B` | one row per distinct (player, bookmaker) pair | not executed | PropShaper.TdStringKeyMergesPairs | PropShaper.OneTdRowPerPlayerBookmaker |
