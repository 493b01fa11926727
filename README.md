# TOTO results analytics — a verified model of its core

The system scrapes Singapore Pools TOTO draw results. It reads a catalogue of
past draws, then each draw's results page. It estimates each draw's prize
pool from the tier prizes and winner counts. It keeps the draws in a
database table keyed by draw number, and prepares the data behind a
dashboard's charts. This project models the parts of it that hold logic:

- the field rules of the scraper (`find_query_str`, `scrape_toto_results`),
  with HTTP and the HTML tree reduced to the strings they yield;
- the prize-pool estimator;
- the missing-draw-date filter and the winning-number formatter;
- the database upsert with its all-or-nothing transaction;
- the dashboard's "update data" action, with batching, progress, checkpoint
  and merge;
- the data preparation of three charts;
- the extension-dispatching file store.

One module per concern, one file per module:

| file | module | models |
|---|---|---|
| wrappers.dfy | `Wrappers` | `Option` |
| text.dfy | `Text` | ASCII character classes, `str(int)`, `int(str)`, substring search |
| calendar.dfy | `Calendar` | proleptic Gregorian dates, `weekday()`, `strftime('%Y-%m-%d')`, `strptime('%d %B %Y')` / `'%d %b %Y'` |
| records.dfy | `Records` | one row of the results table |
| scraper_patterns.dfy | `ScraperPatterns` | the scraper's regular expressions as hand-written matchers |
| catalogue.dfy | `Catalogue` | `find_query_str` (scraper.py) |
| extractor.dfy | `Extractor` | `scrape_toto_results` (scraper.py) |
| calculator.dfy | `Calculator` | `calculate_prize_pools` (calculator.py) |
| data_utils.dfy | `DataUtils` | `get_missing_draw_dates`, `format_winning_numbers` (data_utils.py) |
| db_utils.dfy | `DbUtils` | `save_database` and the `toto_results` table (db_utils.py) |
| app.dfy | `App` | the update block of app.py, lines 110-261 |
| visualization.dfy | `Visualization` | data preparation in visualization.py |
| data_store.dfy | `DataStore` | save_data, load_data and append_data (data_store.py) |

Imperative code stays imperative:
- The scraper's loops are methods whose loops carry invariants. Each is proved
  equal to a recursive specification function, and the properties are
  lemmas about those functions.
- The database table is a class `Database` whose `rows` the save rewrites.
- The dashboard session is a class `Session` with fields for the session's
  data and the progress bar's history.
- The heatmap is an `array2` filled in place by a nested loop.
- The file store is a class `FileStore` over a map from file name to
  stored entry.

Decimal amounts are `real` (exact rationals, not IEEE doubles). NaN cells are
`None`.

Points where the model had to choose:
- Tier 3's allocation is `0.05`, as the code has it. The comment beside it
  says 5.5%.
- The code saves after every fifth batch of ten queries, and only when that
  batch is not the last one (app.py:171-175). The model follows the code.
  It also proves that, with at most 26 queries (a 90-day window holds
  exactly 26 Mondays and Thursdays), there are at most three batches, so the
  checkpoint is never taken (`App.NoIntermediateSave`).
- The session merge de-duplicates on (draw date, draw number), keeping the
  last (app.py:182). The database upsert keys on the draw number alone
  (db_utils.py:156). The model keeps both keys as written.
- The update action passes calendar dates (`YYYY-MM-DD`) where the scraper
  expects catalogue query strings (data_utils.py:59, app.py:161). The model
  passes them through unchanged. What the site answers to such a query is
  the scraper parameter's business.

## Model

| member | source | states |
|---|---|---|
| Text.LowerString | scraper.py:352-353 | lower-casing keeps the length and lower-cases each ASCII letter, nothing else |
| Text.NatToString | data_utils.py:88 | `str(n)` is all digits, has no leading zero and reads back as `n` |
| Text.IntToString | data_utils.py:88 | `str(i)` is non-empty, with a minus sign exactly for negatives |
| Text.ParseIntToString | data_utils.py:88 | `int(str(i)) == i` for every integer |
| Text.Find | scraper.py:96-98 | the result is an occurrence of the pattern, and no earlier occurrence exists |
| Text.Before | scraper.py:98 | `split('&')[0]` is the longest prefix of the text holding no separator: it is followed by the separator or ends the text |
| Text.RunLengthStops | scraper.py:66 | a greedy run (`\s+`, `\d+`, `[A-Za-z]+`) stops at the end of the text or at a character outside its class |
| Text.RunLengthIs | scraper.py:66 | a run of exactly `n` characters of the class, followed by the end or by a character outside it, is the greedy run |
| Text.RunLengthAtLeast | scraper.py:395 | a greedy run reaches at least as far as the characters of its class go |
| Text.Without | scraper.py:385 | `replace(',', '')` leaves no comma and keeps every other character |
| Text.WithoutAppend | scraper.py:385 | removing the commas of two joined pieces is removing them from each piece, in order |
| Text.WithoutDropsOne | scraper.py:385 | one more comma anywhere leaves the result the same |
| Text.WithoutNothingToRemove | scraper.py:385 | text without commas comes back unchanged |
| ScraperPatterns.Search | scraper.py:57 | `re.search` finds the leftmost position at which the pattern matches, and none before it |
| ScraperPatterns.SearchFirst | scraper.py:66-67 | a match at `i` with no match before it is the one `re.search` returns |
| ScraperPatterns.DateAt | scraper.py:66 | a match of `\d{1,2}\s+[A-Za-z]+\s+\d{4}` has a 1-2 digit day, a letter word and a 4-digit year |
| ScraperPatterns.LabelDate | scraper.py:73-83 | a date found in an option label is rendered `YYYY-MM-DD` and parses back as a valid date |
| ScraperPatterns.DateAtReads | scraper.py:66 | `D Month YYYY` written from position `i` (1-2 digit day, spaces, letters, spaces, 4-digit year) is matched at `i` with exactly those day, month and year fields |
| ScraperPatterns.LabelDateReads | scraper.py:66-83 | a label whose first digit starts `D Month YYYY` for a valid date, the month named in full or abbreviated in any case, yields that date as `YYYY-MM-DD` |
| ScraperPatterns.LabelDrawAt | scraper.py:67 | definition of `Draw\s*(?:No\.?)?:?\s*#?(\d+)` at one position, case-insensitive (stated by `ScraperPatterns.LabelDrawSpans` and `ScraperPatterns.LabelDrawAtReads`) |
| ScraperPatterns.LabelDrawSpans | scraper.py:67 | `Draw`, spaces, optional `No`/`No.`, optional `:`, spaces, optional `#` and digits at the given positions give the value of those digits |
| ScraperPatterns.LabelDrawAtReads | scraper.py:67 | every written form (`Draw No. 12`, `draw: 12`, `Draw #12`, `DRAW NO12`, in any case) is read at its position as the value of its digits |
| ScraperPatterns.LabelDrawNumber | scraper.py:67 | definition: the leftmost match of the label's draw pattern (stated by `ScraperPatterns.LabelDrawReads`) |
| ScraperPatterns.LabelDrawReads | scraper.py:67-93 | a label holding one of those forms, with no `d` before it, has that draw number |
| ScraperPatterns.QueryAttrAt | scraper.py:57 | a captured `queryString='…'` value is non-empty and holds no quote |
| ScraperPatterns.PairAt | scraper.py:116 | a `queryString='…' value='…'` match ends after where it starts, and its query string is non-empty without quotes |
| ScraperPatterns.AllPairs | scraper.py:116-117 | every pair `re.findall` returns has a non-empty, quote-free query string |
| ScraperPatterns.TokenAt | scraper.py:171 | a match of `queryString='(.{4}=.{20})' value='` captures a 25-character token with `=` at index 4 |
| ScraperPatterns.AllTokens | scraper.py:171-172 | every token `re.findall` returns has that shape |
| ScraperPatterns.IdFallback | scraper.py:96-102 | definition: the piece after the first `id=` up to the next `id=` or `&`, read as a number when it is all digits, else nothing (stated by `ScraperPatterns.IdFallbackReadsDigits`) |
| ScraperPatterns.IdFallbackReadsDigits | scraper.py:96-102 | for a query string `pre id=digits rest`, with no earlier `id=` and `rest` starting at `&`, another `id=` or the end, the fallback draw number is the value of `digits` |
| ScraperPatterns.PageDrawAt | scraper.py:250 | definition of `Draw No\.?\s*(\d+)` at one position, case-insensitive (stated by `ScraperPatterns.PageDrawSpans` and `ScraperPatterns.PageDrawAtReads`) |
| ScraperPatterns.PageDrawSpans | scraper.py:250 | `Draw No`, an optional `.`, spaces and digits at the given positions give the value of those digits |
| ScraperPatterns.PageDrawAtReads | scraper.py:250 | `Draw No` or `Draw No.` in any case, then spaces and digits, is read at its position as the value of the digits |
| ScraperPatterns.PageDrawReads | scraper.py:250-258 | in a text with no `d` before it, the first match of the results page's draw pattern is there, with those digits |
| ScraperPatterns.GroupAt | scraper.py:369 | `Group\s*(\d)` captures one digit |
| ScraperPatterns.GroupNumber | scraper.py:369 | a cell's group number is a single digit |
| ScraperPatterns.PrizeAt | scraper.py:383 | `\$\s*([\d,]+\.?\d*)` captures a non-empty run of digits and commas, then an optional fraction |
| ScraperPatterns.PrizeMatch | scraper.py:383 | the first prize match in a cell is well formed |
| ScraperPatterns.AmountValue | scraper.py:385 | a captured amount with its commas removed is a non-negative number |
| ScraperPatterns.DecimalValue | scraper.py:385 | `float` of digits, a dot and digits is non-negative, and fails exactly when both digit runs are empty |
| ScraperPatterns.CommaIgnored | scraper.py:383-385 | a comma put anywhere into a captured amount keeps it capturable and leaves its value unchanged |
| ScraperPatterns.AmountExample | scraper.py:385 | the captured amount "1,234.50" is worth 1234.5 |
| ScraperPatterns.CommaKeepsShape | scraper.py:383 | a comma put into the whole part of a capturable amount keeps it capturable |
| ScraperPatterns.DecimalExample | scraper.py:385 | the digits 1234 and 50 around a dot are worth 1234.5 |
| ScraperPatterns.WinnersAt | scraper.py:395 | definition of `(\d+)[^\d]*winners` at one position, case-insensitive: a whole digit run, then `winners` within the non-digits after it (stated by `ScraperPatterns.WinnersSpans` and `ScraperPatterns.WinnersReads`) |
| ScraperPatterns.WinnersSpans | scraper.py:395 | digits up to `k`, non-digits from `k` and `winners` at `p` within them give the value of the digits |
| ScraperPatterns.WinnersMatch | scraper.py:395-397 | definition: the leftmost match's number (stated by `ScraperPatterns.WinnersFirst` and `ScraperPatterns.WinnersReads`) |
| ScraperPatterns.WinnersFirst | scraper.py:395 | with no digit before the match, it is the one `re.search` finds |
| ScraperPatterns.WinnersReads | scraper.py:395-397 | a cell `pre N gap winners rest`, with no digit in `pre` and none in `gap`, gives `N` winners |
| ScraperPatterns.TotoNumber | scraper.py:283 | a cell is a TOTO number exactly when its text is all digits with value 1..49 |
| Calendar.NextDay | data_utils.py:60 | adding a day gives a later date, valid short of year 9999's end |
| Calendar.PrevDay | data_utils.py:50 | subtracting a day gives an earlier date, valid from year 1's second day |
| Calendar.Weekday | data_utils.py:58 | `weekday()` lies in 0..6 |
| Calendar.WeekdayAnchor | data_utils.py:58 | 2024-01-01, a Monday, has weekday 0 |
| Calendar.Ordinal | data_utils.py:56-60 | definition of `toordinal()`: days before the year, days before the month, and the day (stated by `Calendar.DaysBeforeYearFormula`, `Calendar.OrdinalOrder` and `Calendar.OrdinalNext`) |
| Calendar.DaysBeforeYearFormula | data_utils.py:58 | the days before year `y` are `365p + p/4 - p/100 + p/400` with `p = y - 1`, as `toordinal` computes them |
| Calendar.OrdinalOrder | data_utils.py:56 | one date comes before another exactly when its ordinal is smaller, and two dates are equal exactly when their ordinals are |
| Calendar.OrdinalNext | data_utils.py:60 | the next day's ordinal is one more |
| Calendar.WeekdayNext | data_utils.py:58-60 | the next day's weekday is one more, modulo 7 |
| Calendar.MinusDays | data_utils.py:50 | `today - timedelta(days=n)` is a valid date whose ordinal is `n` less |
| Calendar.Digits | data_utils.py:59 | a zero-padded field has at least its width, exactly its width when the value fits, and reads back as the value |
| Calendar.FormatIso | data_utils.py:59 | definition of `strftime('%Y-%m-%d')`: the year to four digits, month and day to two, joined by dashes (stated by `Calendar.FormatIsoRoundTrip` and `Calendar.FormatIsoInjective`) |
| Calendar.ParseIso | data_utils.py:59 | definition: the reading of a `YYYY-MM-DD` string back into a valid date, the partner of `FormatIso` (stated by `Calendar.FormatIsoRoundTrip`) |
| Calendar.FormatIsoRoundTrip | data_utils.py:59 | `strftime('%Y-%m-%d')` of a valid date has the ISO shape and parses back as that date |
| Calendar.FormatIsoInjective | data_utils.py:73 | distinct dates render as distinct strings, so comparing strings compares dates |
| Calendar.MonthNumber | scraper.py:77-80 | a month name is recognised, case-insensitively, exactly when it is one of the twelve names, and gives that month's number |
| Calendar.MonthNamesDistinct | scraper.py:77-80 | the twelve full month names are distinct, and so are the twelve abbreviations |
| Calendar.MonthOfName | scraper.py:80 | a word whose lower-case form is the `m`-th of twelve distinct names is recognised as month `m` |
| Calendar.StrptimeWrites | scraper.py:80 | a token whose day, month name and year write a valid date parses as that date |
| Calendar.Strptime | scraper.py:80 | a parse succeeds exactly when the month word is one of the twelve names and day, month and year form a valid date, and then gives that date |
| Calendar.ParseDateToken | scraper.py:77-83 | the full-name-then-abbreviation attempt yields only valid dates (what it yields is stated by `Calendar.ParseFullName` and `Calendar.ParseAbbrName`) |
| Calendar.ParseFullName | scraper.py:77-81 | a token with a full month name, in any case, gives its valid date on the `%B` attempt |
| Calendar.ParseAbbrName | scraper.py:77-83 | a token with an abbreviated month name, in any case, gives its valid date |
| Calendar.FormatOrderIrrelevant | scraper.py:77-83 | trying `%B` before `%b` succeeds exactly when one of them does, and when both succeed they give the same date |
| Catalogue.LabelEntry | scraper.py:63-109 | an entry keeps its query string; its date is the label's date; its draw number comes from the label, else from the `id=` fallback |
| Catalogue.OptionEntry | scraper.py:55-111 | an option yields at most one entry |
| Catalogue.OptionsPass | scraper.py:54-111 | a `<select>` yields at most one entry per option |
| Catalogue.PairEntries | scraper.py:119-166 | the regex pass yields one entry per matched pair |
| Catalogue.TokenPass | scraper.py:169-173 | the last-resort pass yields entries with no date and no draw number |
| Catalogue.StructuralEntries | scraper.py:49-111 | every entry of the structural pass is a labelled entry |
| Catalogue.OptionsEntries | scraper.py:52-111 | every entry from one `<select>` is a labelled entry |
| Catalogue.PairEntriesFollowPairs | scraper.py:119-166 | entry `k` of the regex pass is labelled and holds pair `k`'s query string |
| Catalogue.FallbackOrder | scraper.py:113-173 | the regex pass counts only when the structural pass found nothing; the last resort only when both found nothing, and then every entry is bare |
| Catalogue.DrawListEntries | scraper.py:105-109 | every catalogue entry is labelled or bare (also scraper.py line 173) |
| Catalogue.LabelledInfo | scraper.py:63-109 | the loops that parse one label compute `LabelEntry` |
| Catalogue.ScanOption | scraper.py:55-111 | one option yields its labelled entry when its markup quotes a `queryString`, else nothing |
| Catalogue.OptionsPassStep | scraper.py:52-111 | one more option extends the pass by that option's entry |
| Catalogue.ScanOptions | scraper.py:52-111 | scanning the options appends exactly the entries of `OptionsPass` |
| Catalogue.ScanSelects | scraper.py:49-111 | the structural pass's loops compute `StructuralPass` |
| Catalogue.ScanPairs | scraper.py:116-166 | the regex pass's loop computes `PatternPass` |
| Catalogue.FindQueryStr | scraper.py:36-176 | the result is the three-stage `DrawList`; empty on a non-200 status; every entry labelled or bare |
| Catalogue.DrawList | scraper.py:36-176 | definition: nothing without status 200, else the first non-empty pass of structural, regex and token passes (stated by `Catalogue.FallbackOrder` and `Catalogue.FindQueryStr`) |
| Catalogue.StructuralPass | scraper.py:49-111 | definition: the labelled entries of every option of every `<select>`, in document order (stated by `Catalogue.StructuralEntries` and `Catalogue.ScanSelects`) |
| Catalogue.PatternPass | scraper.py:116-166 | definition: one labelled entry per `queryString='…' value='…'` pair (stated by `Catalogue.PairEntriesFollowPairs` and `Catalogue.ScanPairs`) |
| Extractor.PageDate | scraper.py:228-247 | a draw date found on the page is rendered `YYYY-MM-DD` and parses back |
| Extractor.TextDate | scraper.py:231-247 | definition: a text node holding a date, not CDATA, yields its first date parsed with `%d %B %Y` then `%d %b %Y` (stated by `Extractor.TextDateReads`) |
| Extractor.TextDateReads | scraper.py:228-247 | a non-CDATA text node whose first digit starts `D Month YYYY` for a valid date yields that date as `YYYY-MM-DD` |
| Extractor.PageDateFirst | scraper.py:231-240 | the page's draw date is the date of the first text node that yields one, and none when no node does |
| Extractor.PageDrawNumber | scraper.py:250-258 | definition: the number of the first text node where the results page's draw pattern matches (stated by `Extractor.PageDrawNumberFirst` and `ScraperPatterns.PageDrawReads`) |
| Extractor.PageDrawNumberFirst | scraper.py:250-258 | text nodes without a match are skipped, and with no match anywhere there is no draw number |
| Extractor.Collected | scraper.py:267-316 | definition: the table numbers and the additional number, or the div/span pass when the table gave none (stated by `Extractor.CollectedInRange`) |
| Extractor.TableNumbers | scraper.py:281-284 | at most one number per cell, each in 1..49 |
| Extractor.TableNumbersAppend | scraper.py:281-284 | the numbers found in joined cells are those of each part, in order |
| Extractor.TableNumbersExact | scraper.py:281-284 | `x` is collected exactly when some cell is the TOTO number `x` |
| Extractor.TableNumbersSound | scraper.py:281-284 | every collected number is some cell's TOTO number |
| Extractor.TableNumbersComplete | scraper.py:281-284 | every cell's TOTO number is collected |
| Extractor.FirstNumber | scraper.py:295-299 | the additional number, when found, is in 1..49 |
| Extractor.BlockScanBounds | scraper.py:303-316 | the div/span pass keeps numbers in 1..49, keeps a known additional number, and collects at most six numbers when none was known |
| Extractor.BlockScan | scraper.py:303-316 | definition of the div/span pass: every block holding a TOTO number adds it in order; when no additional number is known yet the pass stops at the sixth and takes the TOTO number of the block right after it, if any, as the additional number, while with one known it reads every block (stated by `Extractor.BlockScanKnown`, `Extractor.BlockScanUnknown`, `Extractor.BlockScanAdditional` and `Extractor.BlockScanBounds`) |
| Extractor.TotoNumbersFrom | scraper.py:305-308 | reading blocks front to back yields at most one TOTO number per block (the order the pass appends them in) |
| Extractor.TotoNumbersFromTable | scraper.py:305-308 | the numbers read front to back from block `i` are those `TableNumbers` finds in `blocks[i..]` |
| Extractor.NthTotoBlock | scraper.py:305-310 | the block found for the `m`-th number lies from `i` on and holds a TOTO number |
| Extractor.NthTotoBlockCounts | scraper.py:305-310 | an `m`-th TOTO number exists exactly when at least `m` are read, and `m - 1` of them come from blocks before it |
| Extractor.BlockScanKnown | scraper.py:303-316 | with the additional number already known (`additional_number is None` false at line 309), the pass never stops early: it appends every TOTO number from block `i` on, in order, and keeps the known additional number |
| Extractor.BlockScanUnknown | scraper.py:303-316 | with no additional number known, the pass appends TOTO numbers in order until six are held: the result is `wn` followed by the first `6 - |wn|` numbers read, or all of them if fewer |
| Extractor.BlockScanAdditional | scraper.py:309-316 | with no additional number known, the additional number is the TOTO number of the block right after the one giving the sixth number, and none when that block is missing or holds no TOTO number, or when fewer than six are read |
| Extractor.CollectedInRange | scraper.py:281-316 | all collected numbers and the additional number lie in 1..49 |
| Extractor.Finalise | scraper.py:319-331 | fewer than six numbers fails; more than six with no additional number moves the seventh to the additional number; otherwise the list is kept as is |
| Extractor.SevenKeptWhenAdditionalKnown | scraper.py:321 | with the additional number already known, seven table numbers stay seven |
| Extractor.SeventhBecomesAdditional | scraper.py:319-323 | with no additional number, seven table numbers become six plus the seventh as additional |
| Extractor.InitialPrizeData | scraper.py:334-342 | every tier 1..7 starts at zero winners and zero prize, and no other tier is present |
| Extractor.RowGroup | scraper.py:367-373 | a row names its tier by a single digit |
| Extractor.CellAmount | scraper.py:380-385 | a cell's dollar amount is well formed |
| Extractor.LastAmount | scraper.py:380-385 | the last dollar amount in a row is well formed |
| Extractor.CellStep | scraper.py:380-389 | definition: one cell sets the prize from its dollar amount and the winners from an all-digit text, or raises on an amount `float` rejects (stated by `Extractor.RowPrizeIsLastAmount`) |
| Extractor.ScanFrom | scraper.py:378-389 | definition: the cells in turn, stopping at the first that raises (stated by `Extractor.RowPrizeIsLastAmount`) |
| Extractor.WinnersFrom | scraper.py:392-397 | definition: the `N ... winners` pass over the text cells (stated by `Extractor.WinnersFromLast` and `Extractor.WinnersFromNone`) |
| Extractor.WinnersFromLast | scraper.py:392-397 | each match overwrites the one before: the winners are the last matching cell's `N` |
| Extractor.WinnersFromNone | scraper.py:392-397 | with no matching cell the winners stay as they were |
| Extractor.RowPrizeIsLastAmount | scraper.py:380-385 | the prize a row records is the value of its last dollar amount, else the prize is unchanged (also scraper.py lines 400-401) |
| Extractor.ParseRow | scraper.py:361-404 | a row that updates a tier names tier 1..9 |
| Extractor.ApplyRow | scraper.py:400-404 | definition: the row's prize and winners, when found, written into its tier (stated by `Extractor.RowsKeepTiers` and `Extractor.RowsKeepUnnamedTier`) |
| Extractor.RowsFrom | scraper.py:359-404 | definition: the rows of a table in turn, a raising row ending the table (stated by `Extractor.RowsKeepTiers` and `Extractor.RowsKeepUnnamedTier`) |
| Extractor.ApplyTable | scraper.py:345-407 | definition: a readable table mentioning `group` applies its rows, any other table changes nothing (stated by `Extractor.TablesKeepTiers` and `Extractor.TablesKeepUnnamedTier`) |
| Extractor.RowsKeepTiers | scraper.py:359-404 | parsing a table's rows never drops a tier |
| Extractor.TablesKeepTiers | scraper.py:345-407 | parsing the tables never drops a tier |
| Extractor.TablesFrom | scraper.py:345-407 | definition: each prize table's rows applied in turn to the tier data (stated by `Extractor.TablesKeepTiers` and `Extractor.TablesKeepUnnamedTier`) |
| Extractor.RowsKeepUnnamedTier | scraper.py:359-404 | a tier no row names keeps its winners and prize |
| Extractor.TablesKeepUnnamedTier | scraper.py:345-407 | a tier no row of any prize table names keeps its winners and prize |
| Extractor.UnnamedTierIsZero | scraper.py:334-407 | a tier 1..7 that no prize row names stays at zero winners and zero prize |
| Extractor.Group1OnlyTouchesTier1 | scraper.py:411-424 | the Group 1 fallback changes no tier but tier 1 and drops none |
| Extractor.Group1From | scraper.py:411-424 | definition of the Group 1 fallback: the loop has no `break`, so the LAST cell with a usable dollar amount sets the tier 1 prize and the last digits-only cell sets the tier 1 winners; an amount `float` cannot read fails the whole fallback (stated by `Extractor.Group1FromValues`, `Extractor.Group1FromFails`, `Extractor.Group1OnlyTouchesTier1` and `Extractor.Group1Fallback`) |
| Extractor.Group1Amount | scraper.py:419-421 | a cell offers an amount only when it holds `$` and the prize pattern matches it |
| Extractor.LastGroup1Amount | scraper.py:417-422 | the last cell offering an amount: there is one exactly when some cell offers an amount, and it is well formed |
| Extractor.LastCountCell | scraper.py:417-424 | the last cell without `$` that is all digits, the tier 1 winner count the fallback keeps |
| Extractor.Group1FromFails | scraper.py:417-422 | the fallback fails exactly when some `$` cell matches the prize pattern with an amount `float` cannot convert |
| Extractor.Group1FromValues | scraper.py:417-424 | when the fallback succeeds, the tier 1 prize is the value of the last cell offering an amount and the tier 1 winners the value of the last digits-only cell; with no such cell the prizes (or winners) are unchanged |
| Extractor.PagePrizesHaveTiers | scraper.py:334-424 | the tier data of a page, tables then the Group 1 fallback, holds all seven tiers |
| Extractor.PagePrizes | scraper.py:334-424 | definition: the tables applied to zeroed tiers, then the Group 1 fallback when no prize was found (stated by `Extractor.PagePrizesHaveTiers`) |
| Extractor.ScrapeIsSound | scraper.py:262-331 | a scraped draw has a valid ISO date, six or more numbers in 1..49, an additional number in 1..49 if any, and all seven tiers |
| Extractor.Scrape | scraper.py:217-446 | definition: nothing without a page, a date or a draw number or with fewer than six numbers; else the finalised numbers with the tier data (stated by `Extractor.ScrapeIsSound`, `Extractor.SevenKeptWhenAdditionalKnown` and `Extractor.SeventhBecomesAdditional`) |
| Extractor.FindDrawDate | scraper.py:231-247 | the loop over text nodes computes `PageDate`: the first non-CDATA node whose date parses gives it (stated by `Extractor.PageDateFirst` and `Extractor.TextDateReads`) |
| Extractor.FindDrawNumber | scraper.py:250-260 | the loop over text nodes computes `PageDrawNumber`: the first node with `Draw No <digits>` gives it (stated by `Extractor.PageDrawNumberFirst` and `ScraperPatterns.PageDrawReads`) |
| Extractor.CollectTableNumbers | scraper.py:281-284 | the loop computes `TableNumbers` |
| Extractor.FindAdditional | scraper.py:295-299 | the loop computes `FirstNumber` |
| Extractor.ScanBlocks | scraper.py:303-316 | the div/span loop computes `BlockScan` |
| Extractor.ParsePrizeRow | scraper.py:364-404 | the row loops compute `ParseRow` |
| Extractor.ParsePrizeTables | scraper.py:345-407 | the table loop, starting from zeroed tiers, computes `TablesFrom` |
| Extractor.Group1Cell | scraper.py:413-424 | one cell sets the tier 1 prize or winners, or fails on an unconvertible amount, exactly as `Group1From` steps |
| Extractor.Group1Fallback | scraper.py:411-424 | the fallback loop computes `Group1From` |
| Extractor.ScrapeTotoResults | scraper.py:217-446 | the result is `Scrape(page)`; it is sound; a page missing its date or its draw number gives nothing |
| Extractor.ToRow | scraper.py:426-439 | the result row carries the draw's date, number, numbers, additional number and tiers 1..7 |
| Extractor.ScrapeFrame | scraper.py:439-450 | the frame has at most one well-shaped row, and one exactly when the scrape succeeded |
| Calculator.Estimate | calculator.py:50-79 | a tier's estimate exists exactly when its winners are known and positive and its prize is known, and then estimate × allocation = prize × winners |
| Calculator.TierEstimate | calculator.py:49-77 | definition: tier `g`'s estimate with its allocation (stated by `Calculator.Estimate` and `Calculator.EstimatesExact`) |
| Calculator.EstimatesUpTo | calculator.py:82-91 | tiers 2..g give at most g-1 estimates |
| Calculator.EstimatesExact | calculator.py:50-91 | `x` is an available estimate exactly when some tier 2..g estimates `x` |
| Calculator.AvailableEstimates | calculator.py:80-89 | definition: the estimates of tiers 2..7 that exist, in tier order (stated by `Calculator.EstimatesExact` and `Calculator.PoolBetweenEstimates`) |
| Calculator.PoolIgnoresTier1 | calculator.py:50-94 | rows that differ only in tier 1 get the same estimated pool |
| Calculator.SameTiersSameEstimates | calculator.py:50-91 | the estimates depend on tiers 2..7 only |
| Calculator.SumBounds | calculator.py:94 | a sum of values in `[lo, hi]` lies between `lo·n` and `hi·n` |
| Calculator.MeanBounds | calculator.py:94 | the mean of values in `[lo, hi]` lies in `[lo, hi]` |
| Calculator.PoolBetweenEstimates | calculator.py:82-94 | with some estimate available, the pool lies between the smallest and the largest tier estimate |
| Calculator.EstimatedPool | calculator.py:82-98 | definition: the mean of the available estimates, or 2,000,000 × 1 × 0.54 when none is available (stated by `Calculator.PoolBetweenEstimates`, `Calculator.SingleTierPool` and `Calculator.NoWinnersFallback`) |
| Calculator.SingleTierPool | calculator.py:82-94 | with one contributing tier the pool is that tier's estimate |
| Calculator.Tier2Example | calculator.py:51 | tier 2 alone with 5 winners of 100000 gives a pool of 6,250,000: the 8% allocation of line 25, averaged over one estimate at line 94 |
| Calculator.NoWinnersFallback | calculator.py:96-98 | with no winners in tiers 2..7 the pool is 1,080,000 |
| Calculator.TotalWinners | calculator.py:33-41 | the total exists exactly when all seven winner counts are known |
| Calculator.Derive | calculator.py:93-115 | expected group 1 prize = pool × 0.38; sales × 0.54 = pool; rollover is the expected group 1 prize when group 1 had 0 winners, else 0 |
| Calculator.CalculatePrizePools | calculator.py:15-117 | the loop adds the derived columns to each row of a copy, changes nothing else, and computes `WithPools` |
| Calculator.WithPools | calculator.py:15-117 | definition: each row with its derived pool columns, rows kept in order (stated by `Calculator.CalculatePrizePools` and `App.WithPoolsKeys`) |
| DataUtils.WindowDay | data_utils.py:50-54 | window day `k` is a valid date `90 - k` days before today |
| DataUtils.CandidateDates | data_utils.py:49-60 | definition: the ISO dates of the Mondays and Thursdays among the 91 days before today (stated by `DataUtils.CandidatesExact` and `DataUtils.CandidatesAscending`) |
| DataUtils.MissingDrawDates | data_utils.py:63-73 | definition: all candidates when there is no data or no date, else the candidates not stored (stated by `DataUtils.MissingDrawDatesSpec` and `DataUtils.MissingExact`) |
| DataUtils.WindowStep | data_utils.py:54-60 | the loop runs while the window day is not after today, for exactly 91 days |
| DataUtils.DrawDaysBefore | data_utils.py:54-60 | definition: the ISO dates of the Mondays and Thursdays among the first `k` window days (stated by `DataUtils.DrawDaysBeforeExact`, `DataUtils.DrawDaysBeforeBound` and `DataUtils.DrawDaysAscending`) |
| DataUtils.DrawDaysBeforeExact | data_utils.py:54-60 | a date is collected exactly when it is one of the window's Mondays or Thursdays |
| DataUtils.CandidatesExact | data_utils.py:49-60 | a date is a candidate exactly when it lies between today-90 and today inclusive and is a Monday or Thursday |
| DataUtils.DrawDaysBeforeBound | data_utils.py:54-60 | every collected date lies before the current window day |
| DataUtils.DrawDaysAscending | data_utils.py:54-60 | the collected dates are strictly ascending |
| DataUtils.CandidatesAscending | data_utils.py:49-60 | the candidates are strictly ascending |
| DataUtils.MissingDates | data_utils.py:73 | filtering never lengthens the list |
| DataUtils.MissingExact | data_utils.py:73 | a date is kept exactly when it is a candidate and not stored |
| DataUtils.MissingConcat | data_utils.py:73 | the filter works element by element, preserving order |
| DataUtils.MissingKeepsUnstored | data_utils.py:73 | when no candidate is stored, the list comes back unchanged |
| DataUtils.MissingIdempotent | data_utils.py:73 | filtering twice with the same stored set equals filtering once |
| DataUtils.MissingDrawDatesSpec | data_utils.py:63-73 | with no data, or empty data, every candidate is returned; otherwise a date is returned exactly when it is a candidate not already stored |
| DataUtils.CandidateStep | data_utils.py:56-60 | one more window day adds its ISO date exactly when it is a Monday or a Thursday |
| DataUtils.ScanDay | data_utils.py:56-60 | one loop step moves to the next window day and keeps the collected dates equal to the draw days before it |
| DataUtils.CollectCandidates | data_utils.py:49-60 | the loop collects exactly `CandidateDates(today)` |
| DataUtils.GetMissingDrawDates | data_utils.py:35-75 | the loop and the filter compute `MissingDrawDates` |
| DataUtils.NumberStrings | data_utils.py:88 | each number is rendered with `str` |
| DataUtils.Join | data_utils.py:88 | definition of `', '.join`: the pieces with the separator between them (stated by `DataUtils.JoinChars` and `DataUtils.SplitJoin`) |
| DataUtils.Split | data_utils.py:88 | definition of `str.split`, the partner of `Join`: the pieces between the separator's occurrences (stated by `DataUtils.SplitJoin`) |
| DataUtils.SplitJoin | data_utils.py:88 | splitting a `', '`-joined list on the separator gives back the list |
| DataUtils.ParseAllNumbers | data_utils.py:88 | the rendered numbers parse back as the numbers |
| DataUtils.FirstPlus | data_utils.py:88 | with no `+` among the numbers, the first `+` is the separator's |
| DataUtils.PlusSeparates | data_utils.py:88 | the ` + ` separator splits the formatted text into the number list and the additional number |
| DataUtils.FormatReadsBack | data_utils.py:87-89 | a non-empty list formats to text that reads back as the list and the additional number |
| DataUtils.ListedIsNotNA | data_utils.py:87-89 | a list-valued draw never formats as `N/A` |
| DataUtils.FormatWinningNumbers | data_utils.py:87-89 | definition: the numbers joined with `', '`, then ` + ` and the additional number; "N/A" when the numbers are not a list (stated by `DataUtils.FormatReadsBack` and `DataUtils.ListedIsNotNA`) |
| DbUtils.ToRecord | db_utils.py:116-145 | a row converts exactly when it has seven tiers and an additional number, and the record carries its fields |
| DbUtils.ToRecords | db_utils.py:114-146 | all rows convert, or the conversion fails; record `k` is row `k`'s |
| DbUtils.BuildRecords | db_utils.py:114-146 | the record-building loop computes `ToRecords` |
| DbUtils.ToRecordsPrefix | db_utils.py:114-146 | a row that fails to convert fails the whole save (also db_utils.py lines 180-182) |
| DbUtils.WithNumber | db_utils.py:156 | the select returns only rows with that draw number |
| DbUtils.WithoutNumber | db_utils.py:164-167 | definition of the delete: the rows without that draw number, in order (stated by `DbUtils.WithoutAbsent`, `DbUtils.WithNumberAfterDelete` and `DbUtils.OutsideAfterDelete`) |
| DbUtils.Upsert | db_utils.py:155-167 | definition: any row with the record's number deleted, then the record inserted (stated by `DbUtils.UpsertWithNumber`) |
| DbUtils.Lookup | db_utils.py:156-159 | the lookup finds nothing exactly when no row has the number; otherwise a stored row with it |
| DbUtils.LatestFor | db_utils.py:153-167 | the last input record for a number exists exactly when some record has it |
| DbUtils.LatestForIsLast | db_utils.py:153-167 | that record carries the number and no later record does |
| DbUtils.WithoutAbsent | db_utils.py:164-167 | deleting an absent number changes nothing |
| DbUtils.WithNumberAfterDelete | db_utils.py:164-167 | after the delete no row has that number; other numbers' rows are unchanged |
| DbUtils.UpsertWithNumber | db_utils.py:155-167 | after one record is written, exactly that record holds its number, and other numbers' rows are unchanged |
| DbUtils.UpsertAllWithNumber | db_utils.py:153-167 | after the loop a number holds exactly the last input record with it, or its old rows when no input record has it |
| DbUtils.UpsertAll | db_utils.py:153-167 | definition: the records upserted in order, each replacing the row with its draw number (stated by `DbUtils.UpsertAllWithNumber`, `DbUtils.UpsertAllKeepsUnique` and `DbUtils.UpsertAllKeepsOthers`) |
| DbUtils.UpsertAllKeepsUnique | db_utils.py:159-167 | draw numbers stay unique in the table, as the unique column at db_utils.py line 25 demands |
| DbUtils.Outside | db_utils.py:164-167 | the rows outside a set of numbers carry none of them |
| DbUtils.OutsideAfterDelete | db_utils.py:164-167 | deleting a number in the set leaves the rows outside the set unchanged |
| DbUtils.UpsertAllKeepsOthers | db_utils.py:153-167 | rows whose number is not in the input are unchanged, in order |
| DbUtils.Database.WriteAll | db_utils.py:149-178 | the transaction commits exactly when no statement fails, giving the upserted table; on failure the table is rolled back; uniqueness is kept |
| DbUtils.Database.SaveDatabase | db_utils.py:97-182 | the save succeeds exactly when the input is present, non-empty, converts and commits; no input or empty input leaves the table untouched; success gives the upserted table, i.e. `AfterSave` of the old table |
| DbUtils.AfterSave | db_utils.py:97-182 | definition: the table after `save_database(df)`, upserted with the converted records when the frame is non-empty, converts and commits, else unchanged (stated by `DbUtils.Database.SaveDatabase`) |
| App.KeepLast | app.py:182 | de-duplication keeps only rows of its input |
| App.KeysAppend | app.py:181 | the keys of a concatenation are the union of the keys |
| App.KeysDrop | app.py:182 | dropping rows whose key is in a set removes exactly those keys |
| App.KeysKeepLast | app.py:182 | de-duplication loses no key |
| App.KeepLastUnique | app.py:182 | after de-duplication each (date, number) key occurs once |
| App.KeepLastOfUnique | app.py:182 | de-duplicating rows with unique keys changes nothing |
| App.DropAppend | app.py:182 | dropping keys works row by row across a concatenation |
| App.DropCovered | app.py:182 | dropping every key of a list leaves nothing |
| App.DropKeepLast | app.py:182 | dropping keys and de-duplicating commute |
| App.NewRowsWin | app.py:181-182 | merging keeps the old rows whose key the new rows lack, followed by the de-duplicated new rows: new rows override old ones |
| App.Merge | app.py:180-184 | definition: with session data, new rows appended to the session's rows and de-duplicated on (draw date, draw number), keeping the last; with no session data the new rows are taken as they are, without de-duplication (stated by `App.NewRowsWin`, `App.MergeTwice` and `App.KeepLastUnique`) |
| App.MergeTwice | app.py:181-182 | de-duplicating, then merging again, equals merging everything at once (also app.py lines 211-212) |
| App.Superseded | app.py:211-212 | rows whose keys a later merge covers leave no trace |
| App.ReachedStep | app.py:180-186 | a checkpoint merge whose rows cover the previous checkpoint's keys leaves the session as if only it had run |
| App.FinalStep | app.py:209-214 | the final merge after a checkpoint equals merging all new rows into the data held before the run |
| App.TotalBatchesBounds | app.py:138 | `ceil(n / 10)` batches: none for no items, otherwise the last one starts before `n` and together they reach `n` |
| App.TotalBatches | app.py:138 | definition: `(n + 10 - 1) // 10` (stated by `App.TotalBatchesBounds`) |
| App.BatchesStart | app.py:140-145 | before the first batch no item is done and nothing is saved |
| App.BatchesEnd | app.py:145-191 | after the last batch every item is done and the save point is the last checkpoint |
| App.Done | app.py:146-147 | the items of the first `b` batches number at most `n` and at most `10b` |
| App.DoneStep | app.py:145-147 | batch `b` starts at item `10b` and ends at `min(10b + 10, n)`, so the batches cover the items in order, each once |
| App.ProgressUpTo | app.py:152-155 | one progress value per processed item |
| App.Progress | app.py:154 | definition: `min(100, floor((i + 1) · 100 / n))` (stated by `App.ProgressShape`, `App.ProgressEnd` and `App.ProgressMonotone`) |
| App.ProgressUpToAt | app.py:154-155 | the `k`-th progress value is item `k`'s |
| App.ProgressShape | app.py:154-155 | all progress values lie in 0..100, never decrease, and the last is 100 |
| App.ProgressEnd | app.py:154 | the last item reports 100 |
| App.ProgressMonotone | app.py:154 | a later item never reports less, and all reports lie in 0..100 |
| App.CheckpointPrefix | app.py:171-187 | the last checkpoint covers at most all queries |
| App.SavedPrefix | app.py:171-187 | after `b` batches the checkpoint covers no more than the queries processed |
| App.SavedPrefixStep | app.py:171-175 | the checkpoint advances to the end of batch `b` exactly when `b` is not last and `b + 1` is a multiple of 5 |
| App.Frames | app.py:152-168 | only non-empty, well-shaped frames are kept |
| App.ScraperOf | app.py:161-163 | definition: the scraper the session calls is `scrape_toto_results` over a fetched page, giving a frame of at most one row (stated by `Extractor.ScrapeFrame`) |
| App.Flatten | app.py:177 | concatenating well-shaped frames gives well-shaped rows (also app.py line 198) |
| App.FramesGrow | app.py:166 | the frames of a shorter prefix of queries are a prefix of a longer one's |
| App.FramesStep | app.py:161-166 | one more query appends its frame exactly when the frame is non-empty |
| App.FlattenPrefixKeys | app.py:177-182 | the rows of fewer frames have no keys beyond those of all frames |
| App.WithPoolsKeys | app.py:178 | pricing rows keeps their (date, number) keys |
| App.SavedKeysGrow | app.py:177-182 | later partial data covers the keys of earlier partial data |
| App.SavedAfterMerge | app.py:175-186 | a checkpoint save leaves the session holding the merge of all priced rows scraped so far |
| App.SavedUnchanged | app.py:170-175 | without a save the session's data is unchanged |
| App.DateColumnOf | app.py:125 | the session's dates form a valid column for the missing-date filter |
| App.Session.MergeNew | app.py:205-221 | the session holds the merge of the priced new rows, and the table becomes that merge upserted into the old table when the save succeeds, or stays as it was |
| App.Session.ProcessItem | app.py:153-168 | one query reports its progress and appends its frame when non-empty |
| App.Session.ProgressValue | app.py:154 | `min(100, floor((i + 1) · 100 / n))` |
| App.Session.RunBatch | app.py:152-168 | a batch's loop appends its queries' frames and progress values |
| App.Session.AfterBatch | app.py:170-191 | after the batch the session holds what the checkpoint rule says, and the table is untouched while no checkpoint held rows |
| App.Session.Batch | app.py:145-191 | one batch extends the frames and progress to the batch's end and keeps the checkpoint rule, including the untouched table while no checkpoint held rows |
| App.Session.ProcessBatches | app.py:136-191 | the frames are all non-empty scrapes in query order; the progress bar went 0 then one value per item; the session holds the last checkpoint's merge; without a checkpoint that held rows the table is unchanged |
| App.Session.Update | app.py:110-261 | with queries: the session holds the final merge of all new priced rows, or is unchanged when none were scraped; without queries: the latest draw is merged, or the session is unchanged when it fails; in each case the table is the old one with that merge saved into it, or unchanged when nothing was scraped |
| App.WindowWeekday | data_utils.py:58 | window day `j` falls on weekday `(Ordinal(today) - 84 + j) mod 7` |
| App.WeekHasTwo | data_utils.py:58 | any seven consecutive days hold one Monday and one Thursday |
| App.DrawDayStep | data_utils.py:56-60 | each loop step adds a date exactly on a Monday or Thursday |
| App.SevenDaysTwoDraws | data_utils.py:56-60 | any seven days of the window add exactly two dates |
| App.TwentySixCandidates | data_utils.py:49-60 | the window always holds exactly 26 candidate dates |
| App.NoIntermediateSave | app.py:125-175 | there are at most 26 queries and 3 batches, so no checkpoint is ever saved |
| Visualization.CollectNumbers | visualization.py:17-20 | the loop computes `AllNumbers` |
| Visualization.AllNumbers | visualization.py:17-20 | definition: the numbers of every list-valued row, in row order (stated by `Visualization.AllNumbersExact` and `Visualization.CollectNumbers`) |
| Visualization.AllNumbersExact | visualization.py:17-20 | a number is collected exactly when some list-valued row holds it |
| Visualization.NonListIgnored | visualization.py:18-20 | a row whose numbers are not a list changes no frequency |
| Visualization.Tally | visualization.py:23 | counting a number leaves a non-empty table, headed by the number or by the old head |
| Visualization.TallyOrdered | visualization.py:23-25 | counting keeps the table sorted by number with positive counts |
| Visualization.TallyCounts | visualization.py:23 | counting `x` adds one to `x`'s frequency and to the total, and adds `x` to the numbers |
| Visualization.ValueCountsSpec | visualization.py:23-25 | the table is sorted by number with positive counts; each number's frequency is its multiplicity; the frequencies sum to the count; the numbers are those collected |
| Visualization.ValueCounts | visualization.py:23-25 | definition: the frequency table built by counting each number in turn (stated by `Visualization.ValueCountsSpec`, `Visualization.TallyCounts` and `Visualization.TallyOrdered`) |
| Visualization.HeatCell | visualization.py:118-126 | a cell is 0, 1 or 2; 2 exactly for a truthy additional number in 1..49 of a list-valued row; non-zero exactly for a winning or additional number; always 0 for a non-list row |
| Visualization.WinningNumbersHeatmap | visualization.py:116-126 | a fresh 49 × n matrix whose cell `[k, i]` is `HeatCell(df[i], k)` |
| Visualization.GroupPointsStep | visualization.py:173-179 | one more row adds its prize to the tier's points exactly when the tier had winners |
| Visualization.AppendGroupPoints | visualization.py:169-179 | the inner loop appends exactly tier `group`'s points |
| Visualization.GroupPrizeDistribution | visualization.py:166-179 | the loops compute `PointsUpTo(df, 7)` |
| Visualization.GroupPointsExact | visualization.py:168-179 | a point is emitted for group `g` exactly for the prizes of rows with winners in `g` |
| Visualization.GroupPointsSound | visualization.py:168-179 | every point of tier `g` is the prize of a row where `g` had winners |
| Visualization.GroupPointsComplete | visualization.py:168-179 | every row where tier `g` had winners gives `g` a point |
| Visualization.PointsOrdered | visualization.py:168-179 | the points' groups lie in 1..7 and never decrease |
| Visualization.GroupPoints | visualization.py:168-179 | definition: tier `g`'s prize for every row where it had winners, in row order (stated by `Visualization.GroupPointsExact`, `Visualization.GroupPointsSound` and `Visualization.GroupPointsComplete`) |
| Visualization.PointsUpTo | visualization.py:166-179 | definition: the points of tiers 1..g, tier by tier (stated by `Visualization.PointsOrdered` and `Visualization.GroupPrizeDistribution`) |
| DataStore.Extension | data_store.py:15 | `os.path.splitext`: the extension is a suffix of the name, empty or a dot followed by neither `/` nor `.` (also data_store.py line 44) |
| DataStore.ExtensionOfName | data_store.py:15 | `toto_data.pkl` has the extension `.pkl` |
| DataStore.ExtensionOfHiddenFile | data_store.py:15 | a hidden file such as `data/.csv` has no extension |
| DataStore.ExtensionOfDottedDirectory | data_store.py:15 | a dot in a directory name (`v1.2/results`) is no extension |
| DataStore.Load | data_store.py:41-59 | a missing file or an unsupported extension loads nothing |
| DataStore.DropDuplicates | data_store.py:78 | de-duplication never lengthens the rows |
| DataStore.DropDuplicatesElements | data_store.py:78 | de-duplication keeps exactly the distinct rows |
| DataStore.DropDuplicatesDistinct | data_store.py:78 | no row occurs twice afterwards |
| DataStore.DropDuplicatesOfDistinct | data_store.py:78 | rows already distinct are unchanged |
| DataStore.DropDuplicatesPrefix | data_store.py:78 | first occurrences are kept: the result for a prefix is a prefix of the result |
| DataStore.DropDuplicatesFront | data_store.py:77-78 | de-duplicating the stored rows first does not change the result |
| DataStore.SaveLoad | data_store.py:15-29 | loading what was saved gives it back for `.pkl`, for a frame in `.csv` and for a JSON value in `.json`; a failed `.json` save leaves a file that does not load; any other extension changes nothing (also data_store.py lines 44-59) |
| DataStore.Save | data_store.py:7-29 | definition: `.pkl` stores anything, `.csv` stores only a frame, `.json` stores a JSON value or leaves a garbled file, any other extension changes nothing (stated by `DataStore.SaveLoad` and `DataStore.SaveOnlyTouches`) |
| DataStore.SaveOnlyTouches | data_store.py:7-29 | a save changes no other file |
| DataStore.AppendTwice | data_store.py:72-83 | appending two frames in turn equals appending their concatenation |
| DataStore.Appended | data_store.py:72-83 | definition: no existing data gives the new data; two frames give their concatenation de-duplicated; anything else gives None (stated by `DataStore.AppendTwice` and `DataStore.AppendThenLoad`) |
| DataStore.AppendThenLoad | data_store.py:72-84 | for `.pkl`, and for a frame in `.csv`, loading after an append gives what the append returned |
| DataStore.FileStore.SaveData | data_store.py:7-29 | the store after the save is `Save` of the store before |
| DataStore.FileStore.LoadData | data_store.py:31-59 | definition: `DataStore.Load` on the store's current files (stated by `DataStore.Load` and `DataStore.SaveLoad`) |
| DataStore.FileStore.AppendData | data_store.py:61-84 | the result is `Appended` of what was stored: nothing stored gives the new data, two frames give the de-duplicated concatenation, other combinations give nothing; the combined data is saved, and nothing is saved when there is none |

## Left out

- Fetching pages: `requests`, `trafilatura` and the status check's transport (scraper.py:24-39, 188-216). The scraper receives the fetched page as a value, `None` for a failed download.
- HTML parsing: BeautifulSoup navigation and `pandas.read_html` (scraper.py:43-52, 218-229, 272-281, 290-294, 349). Their results are inputs: the option labels, the text nodes, the cell texts, the div/span texts and the cells of each table.
- `find_next` (scraper.py:311) is modelled as the next div/span text in document order.
- Regular expressions are modelled on ASCII text only. Unicode digits in `\d` and `isdigit`, and Unicode case folding in `re.IGNORECASE` and `lower()`, are not modelled.
- Prize rows that name group 8 or 9 write extra keys into the scraper's prize map, as the code does. The table row carries tiers 1..7 only.
- The SQLAlchemy engine, connections, `has_table`, table creation, `load_database`, `migrate_from_pickle` and `test_connection` (db_utils.py:1-95, 184-229). The table is a sequence of records, and the statements that fail are a parameter: the set of draw numbers the database rejects.
- `st.*` messages, the Streamlit session outside lines 110-261, and `last_updated`. The dashboard and its session are the class `Session`.
- Plotly figure construction (visualization.py:27-43, 45-103, 128-153, 181-203).
- `datetime.now()` (data_utils.py:49, app.py:188, 222, 256). Today is a parameter of the update action.
- Pickle, CSV and JSON serialisation (data_store.py:19-25, 48-54). Each is assumed to read back what it wrote: a saved entry loads back as the saved value. A value JSON cannot encode leaves a garbled file. `save_data` with `None` data is not modelled.
- The file-reading and file-writing helpers in data_utils.py:6-33 are not part of this model.
- App.Session.ProgressValue: computes `floor((i + 1) · 100 / n)` exactly. The code's `int((i + 1) / n * 100)` in IEEE doubles can be one less, for example `int(0.29 * 100) == 28`.
- App.Session.ProcessBatches: after a checkpoint that saved rows, does not state the table's contents, only its invariant. `App.Session.Update` never reaches that case (`App.NoIntermediateSave`), so its own contract states the whole table.
- App.Session.Update: takes the scraper as a parameter, a function from query string to a frame of at most one well-shaped row. `App.ScraperOf` builds that function from a page fetcher and `Extractor.ScrapeFrame`.
- Calculator: prices, winners and the derived columns are exact rationals, so IEEE rounding is not modelled. `total_winners` is `None` whenever any tier is NaN, as the element-wise Series addition of the seven winner columns (calculator.py:33-41) propagates NaN.
- Visualization.WinningNumbersHeatmap: holds integers where `np.zeros` holds floats; the values 0, 1 and 2 are the same.
- A float-typed `additional_number` column (NaN present) makes numpy reject `matrix[row['additional_number'] - 1, i]` at visualization.py:126. The model takes the additional number as an integer or `None`.
- `draw_date` values that are pandas Timestamps rather than strings (db_utils.py:117-120, data_utils.py:67-68). The model keeps every date as its `YYYY-MM-DD` string.
- App.Merge: assumes every `draw_date` is a string. In the running program `toto_data` comes from `load_database()` (app.py:35), whose dates can be Timestamps, while freshly scraped rows carry strings; `drop_duplicates(subset=['draw_date', 'draw_number'], keep='last')` at app.py:182, 212 and 249 then keeps a stored row and its re-scraped twin side by side. `App.NewRowsWin`, `App.MergeTwice` and the rest of the merge lemmas (new rows override old ones) hold only when both sides carry strings.
- Dates near the ends of the calendar: `timedelta` raising `OverflowError` before 0001-01-01 or after 9999-12-31. The update action requires today to be more than 90 days after 0001-01-01 and before 9999-12-31.
- Known breakage that the model does not reproduce: app.py:6 imports `get_missing_query_strings`, which data_utils.py does not define; app.py:21-22 import `debug_database` and `check_database_state`, which db_utils.py does not define; app.py:88 passes `silent=`, which `initialize_database` (db_utils.py:48) does not accept.
- Diagnostic and exploratory scripts that only print are not part of this model.
