# NYC Subway Alerts: filter engine, statistics and preferences

A Dafny model of the logic inside the subway-alerts dashboard (`script.js`):

- the filter manager, which keeps the alerts that pass five independent tests:
  line bundle, severity, time scope, location and global rush-hour mode;
- the statistics panel: counts per severity, rush-hour alerts, and "good
  service" lines. The good-service number is 23, the size of the line colour
  catalog, minus the number of distinct lines named by critical alerts. A
  line outside the catalog counts too, so the number can go below zero. When
  critical alerts name only catalog lines, it is the number of catalog lines
  that no critical alert names;
- the CSV serialiser used by the export, and the service-reliability
  indicator;
- the preference loader, which fills every missing saved field with a
  default. The record the saver writes is modelled too, as the loader's
  partner.

Modules, one per component:

- `Alerts` (`alerts.dfy`): the alert record, the severity and borough
  datatypes, the line catalog and the six simulated alerts. `Optional` holds
  `Option`.
- `Filters` (`filters.dfy`): the filter form values as closed datatypes. Each
  has an `Unknown…(name)` case for a string no `case` label knows, so the
  `default:` arms show. It also holds the five predicates, `Filter`, and the
  parsers between form strings and datatypes.
- `Statistics` (`statistics.dfy`): the counts, and the set-building loop for
  the lines with issues.
- `Csv` (`csv.dfy`): `convertToCSV`, with `join` and `split`.
- `Reliability` (`reliability.dfy`): the threshold classifier.
- `Preferences` (`preferences.dfy`): the saved record, decoding and encoding.
- `App` (`app_state.dfy`): the shared application state as a class. Its
  methods reassign `filteredAlerts`, the form values and the preferences.

Conventions of the model:

- "Now" and "a location fix is known" are parameters.
- Instants are integers (milliseconds).
- Walking distance is a natural number of hundredths of a mile. The test
  `parseFloat(d) < 1.0` becomes `d < 100`.

Behaviour of the code that the model keeps as written:

- With the location scope `'nearme'` and no location fix, the code falls
  through to `return true` and keeps every alert. It does not exclude them.
- An unknown time-scope name takes the `default:` arm and keeps everything.
- The statistics are counted over all current alerts, not over the filtered
  ones.
- Loading sets each filter `<select>` to the saved value. A value the
  `<select>` has no option for reads back as the empty string, and that is
  what the next filter run and the next save see.

## Model

| member | source | states |
|---|---|---|
| `Alerts.SampleAlerts` | script.js:38-123 | the six simulated alerts; each was issued before the load instant, and each one with a resolution time is resolved after it |
| `Filters.MatchesLineFilter` | script.js:726-744 | 'all' passes every alert; a bundle passes iff some line of the alert is among the bundle's tokens; an unknown value passes nothing |
| `Filters.MatchesSeverityFilter` | script.js:749-751 | no contract of its own; its cases are stated by `Filters.SeverityFilterCases` |
| `Filters.MatchesTimeFilter` | script.js:756-769 | no contract of its own; its cases are stated by `Filters.TimeFilterCases` |
| `Filters.MatchesLocationFilter` | script.js:774-783 | no contract of its own; its cases are stated by `Filters.LocationFilterCases` |
| `Filters.MatchesRushHourMode` | script.js:788-790 | no contract of its own; its effect on the filter is stated by `Filters.RushHourModeFilter` |
| `Filters.Passes` | script.js:712-716 | no contract of its own; `Filters.Filter` keeps exactly the alerts for which it holds |
| `Filters.Filter` | script.js:711-717 | the result is no longer than the input, and an alert is in it iff it is in the input and passes all five predicates |
| `Filters.FilterIsSubsequence` | script.js:711-717 | the filtered list is a subsequence of the input: elements deleted, the rest in their original order |
| `Filters.FilterKeepsPassing` | script.js:711-717 | a list whose every alert passes is returned unchanged |
| `Filters.FilterIdempotent` | script.js:711-717 | filtering the filtered list again with the same criteria, time, fix and mode changes nothing |
| `Filters.FilterAppend` | script.js:711-717 | filtering a concatenation is the concatenation of the filtered parts |
| `Filters.FilterDefaultIsIdentity` | script.js:726-790 | with every form value 'all' and rush-hour mode off, the output equals the input |
| `Filters.SomeLineBundle` | script.js:729-743 | a bundle keeps an alert iff one of its lines is among the bundle's tokens (the `some` over the `switch`) |
| `Filters.SomeLineUnknown` | script.js:741 | an unrecognised bundle name rejects every line, through the `default: return false` arm |
| `Filters.LineFilterBundles` | script.js:726-744 | by form value: 'all' passes; 'NQR' passes iff some line is in {N,Q,R,W}, W included; '456' passes iff some line is in {4,5,6}; a value that is not an option excludes every alert |
| `Filters.SeverityFilterCases` | script.js:749-751 | by form value: 'all' passes; a severity's value passes iff the alert has that severity; a value that is not an option passes nothing |
| `Filters.TimeFilterCases` | script.js:756-769 | by form value: 'all' passes; 'active' passes iff there is no resolution time or it is after now; 'rush' iff the alert is rush-hour; 'planned' iff severity is info; a value no `case` knows passes |
| `Filters.LocationFilterCases` | script.js:774-783 | by form value: 'all' passes; a borough's value passes iff the alert's location is that borough, with or without a fix; 'nearme' with a fix passes iff under one mile; 'nearme' without a fix passes; a value that is not an option passes nothing |
| `Filters.RushHourModeFilter` | script.js:788-790 | with rush-hour mode on, every kept alert is a rush-hour one, and the result is the mode-off result narrowed to rush-hour alerts |
| `Filters.ParseLineFilter` | script.js:729-742 | parsing a line-filter form value keeps its name: the name of the parsed value is the input string |
| `Filters.ParseSeverityFilter` | script.js:749-751 | parsing a severity form value keeps its name |
| `Filters.ParseTimeScope` | script.js:756-768 | parsing a time form value keeps its name |
| `Filters.ParseLocationScope` | script.js:774-783 | parsing a location form value keeps its name |
| `Filters.SelectLineFilter` | script.js:500 | setting the line `<select>` to a string gives an unknown filter iff the string is not an option; an unknown filter read back has the empty name; an option reads back as itself |
| `Filters.SelectSeverityFilter` | script.js:501 | the same read-back rule for the severity `<select>` |
| `Filters.SelectTimeScope` | script.js:502 | the same read-back rule for the time `<select>` |
| `Filters.SelectLocationScope` | script.js:503 | the same read-back rule for the location `<select>` |
| `Filters.CanonicalRoundTrip` | script.js:706-709 | criteria are canonical (no unknown case holds an option's value) iff each of the four values prints to a string that parses back to it |
| `Filters.ParsedCriteriaCanonical` | script.js:706-709 | criteria read from any four form strings are canonical |
| `Filters.KnownFiltersCanonical` | script.js:729-742 | every bundle, severity and borough, and the all-'all' criteria, survive printing and parsing |
| `Filters.KnownCriteriaOptions` | script.js:706-709 | criteria with no unknown case print to four option values and are canonical |
| `Statistics.CountSeverity` | script.js:973-975 | a severity count is at most the number of alerts, and it is zero iff no alert has that severity |
| `Statistics.CountRushHour` | script.js:976 | the rush-hour count is at most the number of alerts, and equals it iff every alert is rush-hour |
| `Statistics.SeverityCountsCoverAll` | script.js:973-975 | the critical, warning and info counts add up to the number of alerts |
| `Statistics.CountSeverityIsFilterSize` | script.js:973-975 | a severity count equals the size of the filter engine's result with only that severity selected |
| `Statistics.CountRushHourIsFilterSize` | script.js:976 | the rush-hour count equals the size of the filter engine's result under rush-hour mode alone |
| `Statistics.CatalogSize` | script.js:7-18 | the colour catalog has 23 different line keys |
| `Statistics.CriticalLines` | script.js:980-985 | no contract of its own; `Statistics.CollectLinesWithIssues` proves the loop builds exactly this set |
| `Statistics.GoodServiceLines` | script.js:979-988 | no contract of its own; its meaning is stated by `Statistics.GoodServiceBounds` and `Statistics.GoodServiceIsCatalogCount` |
| `Statistics.GoodServiceBounds` | script.js:979-988 | if critical alerts name only catalog lines, good service lies in [0, 23] |
| `Statistics.GoodServiceIsCatalogCount` | script.js:979-988 | if critical alerts name only catalog lines, good service equals the number of catalog lines that no critical alert names |
| `Statistics.CollectLinesWithIssues` | script.js:980-985 | the set the nested `forEach` builds is exactly the set of lines named by critical alerts |
| `Statistics.ComputeStatistics` | script.js:971-988 | the five panel numbers are the counting functions and the good-service count; the three severity counts sum to the number of alerts and the rush-hour count does not exceed it |
| `Statistics.SampleAllPass` | script.js:38-123 | the six simulated alerts all pass the default criteria |
| `Statistics.SampleCounts` | script.js:38-123 | among the simulated alerts one is critical and three are rush-hour |
| `Statistics.SampleGoodService` | script.js:38-123 | the simulated alerts leave 20 lines in good service (23 minus lines 4, 5, 6) |
| `Statistics.SampleLineFilters` | script.js:38-123 | the N/Q alert passes the form value 'NQR' and not '456' |
| `Statistics.SampleActiveFilter` | script.js:38-123 | at the earliest resolution time, 'active' drops exactly the two alerts resolved by then |
| `Csv.Keys` | script.js:371 | the header list has one key per field, in field order |
| `Csv.Lookup` | script.js:374 | a looked-up value is the value of the first field with that key, or "undefined" when no field has it |
| `Csv.SplitJoin` | script.js:372-375 | splitting a join at a separator that no part contains gives the parts back |
| `Csv.QuotedFields` | script.js:374 | a data row has one field per header: the record's value under that header in double quotes |
| `Csv.DataRows` | script.js:374 | there is one data row per record, in record order, its quoted fields joined by commas |
| `Csv.ConvertToCsv` | script.js:368-378 | the output is empty iff there are no records |
| `Csv.CsvRows` | script.js:368-378 | with no newline in any key or value, the output splits into 1 + n rows: the first record's keys joined by commas, then each record's quoted fields |
| `Csv.DataRowFields` | script.js:374 | with no comma in any key or value, a data row splits into one cell per header; each cell is quoted and holds the value verbatim, embedded quotes unescaped. Comma-free data only |
| `Reliability.ReliabilityIndicator` | script.js:355-361 | the level's rank is the number of the thresholds 40, 60, 75, 90 that the percentage reaches |
| `Reliability.IndicatorMonotonic` | script.js:355-361 | a higher percentage never gets a worse level |
| `Reliability.IndicatorExtremes` | script.js:355-361 | 'excellent' iff at least 90; 'very poor' iff below 40 |
| `Preferences.DecodePreferences` | script.js:500-510 | each missing field takes its own default whatever the other fields hold ('all' for each filter, false for sound and rush-hour mode, 'light', 'normal', 'en'); a non-empty saved theme, font size or language is kept and the restored ones are never empty; sound and rush-hour mode are on iff saved as true; a saved filter value that is an option is restored as itself, and any other non-empty one becomes the empty read-back |
| `Preferences.EncodePreferences` | script.js:469-480 | every field of the saved record is present; its meaning is fixed by `Preferences.DecodeEncode` |
| `Preferences.NothingSavedGivesDefaults` | script.js:500-510 | a record with no fields restores the default settings |
| `Preferences.EmptyStringIsMissing` | script.js:500-510 | for each of the seven string fields, an empty string counts as falsy in the fallback, so it restores the same as a missing field |
| `Preferences.DecodeEncode` | script.js:470-481 | loading the record that saving writes restores the saved settings, when every filter value is an option and no string is empty |
| `Preferences.ReloadIsStable` | script.js:500-510 | loaded settings whose four filter values are options can be saved and reloaded unchanged |
| `Preferences.UnknownFilterResets` | script.js:500-503 | a saved filter value that is not an option loads as the empty read-back, and one more save and load turns it into 'all'; after that round the settings are stable |
| `App.AppState.constructor` | script.js:24-35 | the initial state: no alerts, default preferences, no location fix, every form value 'all' |
| `App.AppState.ApplyFilters` | script.js:705-718 | only `filteredAlerts` changes. It becomes the filter of the current alerts: a subsequence holding exactly the passing alerts, only rush-hour alerts in rush-hour mode, and all current alerts under default criteria |
| `App.AppState.UpdateStatistics` | script.js:971-988 | the panel numbers are counted over all current alerts |
| `App.AppState.SavePreferences` | script.js:468-481 | the saved record is the encoding of the current form values and preferences, every field present |
| `App.AppState.LoadPreferences` | script.js:492-510 | no record leaves the state unchanged; a record sets the form values (as the `<select>`s read them back) and the preferences to its decoding; reloading what was saved changes nothing when every filter value is an option and no string is empty |

## Left out

- DOM reads and writes. This covers the `<select>` lookups in `apply`, which
  become the `criteria` field; `UIManager`; and the statistics panel writes.
  The read-back of a `<select>` set to a value it has no option for is
  modelled (`SelectLineFilter` and its siblings).
- The option lists of the four `<select>`s. They come from the page's HTML,
  which is not part of this model. The model takes them to be 'all' plus
  the values the `switch` and `case` labels of the filter predicates know
  ('nearme' and the four boroughs for the location filter).
- Csv.DataRowFields: states how a data row splits back into cells only for
  data with no comma in any key or value. The export's own records contain
  commas (line lists joined with ", ", descriptions), and a quote-aware
  reading of the rows is not modelled.
- `MatchesTimeFilter` reads one instant `now` for the whole filter run. The
  code calls `new Date()` once per alert, so a run that straddles a
  resolution instant can see two different instants.
- Timers and the event loop: `NotificationManager`, the refresh interval,
  `App.init`, `AlertManager.load` and its fallbacks, and
  `checkForCriticalAlerts`.
- `SoundManager`. It uses Web Audio with floating-point frequencies.
- Browser APIs:
  - `LocationManager` (a fix is the boolean `hasLocation`);
  - `ShareManager` and `DirectionsManager`;
  - `Utils.downloadFile` and `window.print`.
- `ExportManager.export`'s record building. It uses `toISOString` and
  renders numbers and booleans as text. `ConvertToCsv` takes records whose
  values are already text.
- `localStorage`, `JSON.parse` and `JSON.stringify`. A missing or unparsable
  saved record is `None`.
- Saved fields of the wrong JSON type, such as a string where a boolean
  belongs. The saved record is typed.
- The `lastUpdated` timestamp and the "settings restored" notice. Both depend
  on the clock.
- Locale formatting (`formatTime`, `formatTimestamp`), the `TRANSLATIONS`
  tables and `Utils.translate`. `ReliabilityIndicator` returns a level, not
  the translated label.
- `parseFloat` on the walking-distance strings. Distances are whole
  hundredths of a mile.
- Reliability percentages that are fractional or NaN. The percentage is an
  integer.
- `toggleRushHourMode` and `clearPreferences`. They are event handlers
  outside the filter, statistics and preference-loading core.
- The initial `<select>` values come from the page's HTML. The HTML is not
  part of this model; the constructor starts every form value at 'all'.
