# Alarm statistics and taxonomy scripts, modelled in Dafny

This project models the data-processing core of a railway signalling
alarm-analysis toolkit. Five pieces are modelled:

- **Statistics endpoint (`get_stats` in `pyfiles/api_server.py`).**
  - The requested dates become a UTC timestamp window.
  - A loop over the grouped alarm rows strips each station code and looks up
    its maintenance section and workshop in the station directory.
  - Every row counts towards the grand total. Rows whose section is unknown
    (未知电务段) are then skipped.
  - Every other row is tallied into four tables:
    - table 1: per-section totals by alarm level, and a total without
      external-power alarms;
    - table 2: monitoring self-diagnosis breakdowns;
    - table 3: external-interface breakdowns;
    - table 4: per "section - workshop" counts, of which the five largest are
      reported.
  - The tables are then formatted as output lines.
- **Type-based alarm taxonomy loader (`pyfiles/gen_map_v3.py`).**
  - Alarms without sub-alarms put their hexadecimal type into a
    self-diagnostic set.
  - Categorised alarms map their type to a category.
- **Name-based alarm taxonomy loader (`pyfiles/gen_map.py`).**
  - Alarms without sub-alarms put their name into a self-diagnostic set.
  - Categorised alarms map the file stem of each sub-alarm, and the part of
    the stem after its first underscore, to the category.
- **Station directory builder (`pyfiles/readstations.py`).** It builds the map
  from each stripped telegraph code to the stripped name, workshop and
  section.
- **Offline Markdown report (`pyfiles/gen_report.py`).**
  - Per-station counts are folded into workshop and section tallies.
  - Device codes are named.
  - Level totals and the internal count are computed.
  - Table rows are written, with descriptions escaped for Markdown cells.

The loops are methods proved against recursive specification functions over
the loop's prefix. For example, `TallyRows` ensures `t == TallyOf(stationMap,
rows)`. The properties the scripts rely on are proved as lemmas about those
functions. Examples: every number in the statistics tables is the sum of the
counts of exactly the rows the classification rules send to it; the last
writer wins in the taxonomy maps; the directory holds exactly the non-empty
stripped codes.

The two taxonomy loaders mutate module-level tables, so each is a class whose
`Load` method updates its fields. Python dictionaries whose iteration order
reaches the output are insertion-ordered lists of pairs (`Dicts.Dict`).
Dictionaries whose order does not matter are Dafny `map`s.

Rows of stations whose section is known but whose workshop is not are kept
in table 4, under the key "section - 未知车间" (`pyfiles/api_server.py:112`
and `:158`); the model does the same.

## Model

| member | source | states |
|---|---|---|
| AlarmStats.Timestamps | pyfiles/api_server.py:67-72 | both ends of the window are multiples of 86400; the start is midnight UTC of the start day and the end is midnight UTC of the day after the end day |
| AlarmStats.WindowHoldsWholeDays | pyfiles/api_server.py:67-80 | a creation time is in `start_ts <= t < end_ts` exactly when its UTC day lies between the start day and the end day |
| AlarmStats.Bucket.Key | pyfiles/api_server.py:137-155 | the breakdown keys; only the total bucket is keyed "total" |
| AlarmStats.KeyInjective | pyfiles/api_server.py:137-155 | different buckets have different keys, so no two buckets share a breakdown entry |
| AlarmStats.DirectoryLookup | pyfiles/api_server.py:107-115 | the station is looked up by its stripped code; a code missing from the directory gives 未知电务段 and 未知车间, so the row stays out of the tables; a known section or workshop is the one the directory entry holds |
| AlarmStats.SelfDiagnosisBucketOf | pyfiles/api_server.py:139-142 | first match, as an iff per outcome on `str(des)`: holding 通信 or 状态 → self_alarm; else holding 模拟量 → elec_char; else holding 无表示 → switch_no_rep; else other |
| AlarmStats.ExternalBucketOf | pyfiles/api_server.py:150-155 | first match, as an iff per outcome: device type 24 or 27 → power; else 50 → zpw2000; else 15, 16, 52 or 51 → atp; else 1 or 6 → interlock; else a description holding 缺口 → gap; else other |
| AlarmStats.CountSection | pyfiles/api_server.py:125-131 | the table 1 update of one row equals `CountRow`: total, the row's level (1, 2 or 3 only) and, without 外电网, the no-external total grow by cnt |
| AlarmStats.SelfDiagnosisBucketFor | pyfiles/api_server.py:139-142 | the if/elif chain picks `SelfDiagnosisBucketOf(row)` |
| AlarmStats.ExternalBucketFor | pyfiles/api_server.py:150-155 | the if/elif chain picks `ExternalBucketOf(row)` |
| AlarmStats.CountAlarmRow | pyfiles/api_server.py:106-158 | one pass of the loop body produces `Step(stationMap, t, row)`: an unknown-section row only adds to the grand total |
| AlarmStats.TallyRows | pyfiles/api_server.py:105-158 | the row loop produces `TallyOf(stationMap, rows)` |
| AlarmStats.ReadStep | pyfiles/api_server.py:105-158 | one row adds its count to exactly the counters it hits and leaves every other counter unchanged |
| AlarmStats.ReadTable1Step | pyfiles/api_server.py:125-131 | one row changes a section's table 1 counters by cnt exactly when it hits them |
| AlarmStats.ReadCountIn | pyfiles/api_server.py:136-142 | `row["total"] += cnt; row[b] += cnt` adds cnt to "total" and to bucket b and to no other bucket |
| AlarmStats.ReadTable2Step | pyfiles/api_server.py:135-142 | one row changes a table 2 counter by cnt exactly when it is a kept monitoring row of that section and the counter is "total" or its bucket |
| AlarmStats.ReadTable3Step | pyfiles/api_server.py:146-155 | one row changes a table 3 counter by cnt exactly when it is a kept non-monitoring row of that section and the counter is "total" or its bucket |
| AlarmStats.ReadWorkshopStep | pyfiles/api_server.py:158 | one row changes a workshop count by cnt exactly when it is kept and its "section - workshop" key is that key |
| AlarmStats.TallyCounts | pyfiles/api_server.py:105-158 | every number in the four tables, and the grand total, equals the summed counts of exactly the rows the classification rules send to it (absent keys read as 0) |
| AlarmStats.TableKeys | pyfiles/api_server.py:115-158 | each table has a key for every section (in table 4, every "section - workshop") of a row written into it, and no other key |
| AlarmStats.NoUnknownSection | pyfiles/api_server.py:111-115 | tables 1-3 never list 未知电务段 |
| AlarmStats.Table1Step | pyfiles/api_server.py:125-131 | after any row, table 1 lists no section twice, and every section's level counts sum to at most its total, as does its no-external count |
| AlarmStats.CountInWellFormed | pyfiles/api_server.py:136-155 | a breakdown stays well-formed after a `+=` on "total" and on one of its table's sub-buckets: "total" first, no bucket twice, only its own table's buckets, and "total" equal to the sum of the others |
| AlarmStats.Table2Step | pyfiles/api_server.py:135-142 | one row keeps every table 2 breakdown well-formed and no section listed twice |
| AlarmStats.Table3Step | pyfiles/api_server.py:146-155 | one row keeps every table 3 breakdown well-formed and no section listed twice |
| AlarmStats.SumsStep | pyfiles/api_server.py:124-158 | a kept row adds cnt to the sum of table 1 totals, to the sum of workshop counts and to the sum of table 2 and table 3 totals; an unknown-section row adds to none of them |
| AlarmStats.ConsistentStep | pyfiles/api_server.py:105-158 | one row preserves the table invariant `Consistent` |
| AlarmStats.TallyConsistent | pyfiles/api_server.py:105-158 | after any rows: no key is repeated; levels and the no-external count fit each section's total; each breakdown's total is the sum of its sub-buckets; table 1 totals, workshop counts and table 2 plus table 3 totals all sum to the same figure, which equals the summed counts of the rows whose station has a known section |
| AlarmStats.CounterAtMostGrand | pyfiles/api_server.py:106-110 | no counter of the reference definition exceeds the grand total, since every row is added to `total_alarms` before any filter |
| AlarmStats.SelfDiagnosisBucketsAddUp | pyfiles/api_server.py:135-142 | over any rows, a section's table 2 total equals self_alarm + elec_char + switch_no_rep + other: each monitoring row lands in exactly one sub-bucket |
| AlarmStats.ExternalBucketsAddUp | pyfiles/api_server.py:146-155 | over any rows, a section's table 3 total equals power + zpw2000 + atp + interlock + gap + other: each external-interface row lands in exactly one sub-bucket |
| AlarmStats.SectionSumSplit | pyfiles/api_server.py:135-155 | summed over any rows, a section's row count is its monitoring rows' count plus its external-interface rows' count |
| AlarmStats.SectionSplit | pyfiles/api_server.py:135-155 | per section, table 1 total = table 2 total + table 3 total |
| AlarmStats.GrandTotal | pyfiles/api_server.py:106-115 | the grand total counts every row, and it does not depend on the station directory |
| AlarmStats.FormatSections | pyfiles/api_server.py:163-171 | one table 1 line per section, in first-seen order, carrying its tally and station and turnout counts of 0 |
| AlarmStats.FormatBreakdowns | pyfiles/api_server.py:174-189 | one line per section, in first-seen order, with its breakdown and its count read from the breakdown's "total" |
| AlarmStats.RankWorkshops | pyfiles/api_server.py:192-193 | at most five workshop lines, the first entries of the stable descending sort, in non-increasing count order |
| AlarmStats.SectionLine | pyfiles/api_server.py:163-171 | line i of the tally's table 1, written out, reports its section (`ReportsSection`): a known section, station and turnout counts of 0, and total, level1-3 and total_no_ext each equal to the summed counts of the section's rows that reach them |
| AlarmStats.BreakdownLine | pyfiles/api_server.py:174-189 | line i of the tally's table 2 (3), written out, reports its section (`ReportsBreakdown`): a known section, count = the breakdown's "total", a well-formed breakdown, and every bucket equal to the summed counts of the section's monitoring (external) rows the chain sends to it |
| AlarmStats.SectionLines | pyfiles/api_server.py:163-171 | every table 1 output line reports its section, and no section appears twice |
| AlarmStats.BreakdownLines | pyfiles/api_server.py:174-189 | every table 2 (3) output line reports its section, and no section appears twice |
| AlarmStats.GetStats | pyfiles/api_server.py:105-235 | the response: the period text; overview total = all rows' counts; tables 1, 2 and 3 have one line per entry of the tally's table, same names in the same order (so `TableKeys` says which sections appear), each reporting every figure of its section as above, no name twice; table 4 the top-five ranking; top issues passed through; the fixed trend placeholder |
| AlarmCategories.CategoryOf | pyfiles/gen_map_v3.py:44-50 | first match, as an iff per outcome: exactly 道岔无表示报警 → switch_no_rep; else containing 电气特性超限 → elec_char; else containing 智能分析 → smart_diag; else none |
| AlarmCategories.Category.Label | pyfiles/gen_map.py:26-32 | each category has its own label string: switch_no_rep, elec_char or smart_diag, as an iff per category |
| Numerals.ParseHex | pyfiles/gen_map_v3.py:32-35 | `int(s, 16)` yields a value exactly when s is a non-empty run of hex digits |
| Numerals.ParseHexRoundTrip | pyfiles/gen_map_v3.py:33 | every natural number is read back from its hexadecimal text |
| Numerals.ParseHexLeadingZero | pyfiles/gen_map_v3.py:33 | a leading zero does not change the value read |
| AlarmTypeConfig.ApplyAlarm | pyfiles/gen_map_v3.py:26-53 | one alarm adds its type to the self-diagnostic set exactly when it has a name, a hex type and no sub-alarms; it writes type → category exactly when it also has sub-alarms and a category; otherwise nothing changes |
| AlarmTypeConfig.TypeOf | pyfiles/gen_map_v3.py:27-35 | an alarm is filed under a type exactly when its name and type attributes are present and non-empty and the type reads as hexadecimal; the type is the value read |
| AlarmTypeConfig.SelfDiagTypesOf | pyfiles/gen_map_v3.py:37-41 | a type is self-diagnostic after loading iff it was before or some named, hex-typed alarm without sub-alarms carries it |
| AlarmTypeConfig.TypeMapKeys | pyfiles/gen_map_v3.py:43-53 | a type is in the map after loading iff it was before or some categorised alarm with sub-alarms carries it |
| AlarmTypeConfig.TypeMapLastWriterWins | pyfiles/gen_map_v3.py:52-53 | the last alarm writing a type decides its category |
| AlarmTypeConfig.TypeMapUntouched | pyfiles/gen_map_v3.py:27-35 | a type no alarm writes keeps its old entry, or stays absent; skipped alarms change nothing |
| AlarmTypeConfig.TypeConfig.constructor | pyfiles/gen_map_v3.py:5-6 | both global tables start empty |
| AlarmTypeConfig.TypeConfig.Load | pyfiles/gen_map_v3.py:26-53 | loading a parsed file leaves the tables equal to `ApplyAll` of the old tables over the alarms; a missing file changes nothing |
| AlarmTypeConfig.LoadMissingFile | pyfiles/gen_map_v3.py:13-15 | with no configuration file both tables stay empty |
| Text.Basename | pyfiles/gen_map.py:44 | the base name is no longer than the path |
| Text.BasenameSpec | pyfiles/gen_map.py:44 | the base name is the longest suffix of the path without a separator |
| Text.SplitExt | pyfiles/gen_map.py:45 | root + extension is the name |
| Text.SplitExtSpec | pyfiles/gen_map.py:45 | the extension is empty or a dot followed by no dot, and it is non-empty exactly when some dot follows a non-dot character |
| Text.AfterFirstSpec | pyfiles/gen_map.py:49-51 | `s.split(c, 1)[1]` is the suffix right after a c with no c before it |
| AlarmNameConfig.FileStem | pyfiles/gen_map.py:44-45 | the stem is a prefix of the base name |
| AlarmNameConfig.SubAlarmKeysShape | pyfiles/gen_map.py:41-51 | a named sub-alarm always writes its stem; no key holds a path separator; the only other key is the part of the stem after its first underscore |
| AlarmNameConfig.KeysOfSubAlarms | pyfiles/gen_map.py:40-51 | a key is written for a run of sub-alarms iff one of them writes it |
| AlarmNameConfig.WriteAll | pyfiles/gen_map.py:46-51 | writing a category under a set of keys adds exactly those keys with that category and keeps every other entry |
| AlarmNameConfig.WriteSubAlarm | pyfiles/gen_map.py:41-51 | the inner loop body writes the category under exactly its sub-alarm's keys; a sub-alarm without a filename writes nothing |
| AlarmNameConfig.ApplyAlarm | pyfiles/gen_map.py:19-51 | one alarm adds its name to the self-diagnostic set exactly when it is named and has no sub-alarms; it writes its sub-alarms' keys exactly when it also has sub-alarms and a category; otherwise nothing changes |
| AlarmNameConfig.SelfDiagNamesOf | pyfiles/gen_map.py:34-36 | a name is self-diagnostic after loading iff it was before or some named alarm without sub-alarms carries it |
| AlarmNameConfig.CategoryMapKeys | pyfiles/gen_map.py:38-51 | a key is in the map after loading iff it was before or some categorised alarm with sub-alarms writes it |
| AlarmNameConfig.CategoryMapLastWriterWins | pyfiles/gen_map.py:46-51 | the last alarm writing a key decides its category |
| AlarmNameConfig.NameConfig.constructor | pyfiles/gen_map.py:5-6 | both global tables start empty |
| AlarmNameConfig.NameConfig.Load | pyfiles/gen_map.py:19-51 | loading a parsed file leaves the tables equal to `ApplyAll` of the old tables over the alarms; a missing file changes nothing |
| AlarmNameConfig.NameConfig.AddSubAlarm | pyfiles/gen_map.py:41-51 | the inner loop body writes the category under exactly one sub-alarm's keys and leaves the self-diagnostic set alone |
| AlarmNameConfig.NameConfig.AddSubAlarms | pyfiles/gen_map.py:40-51 | the inner loop writes the category under exactly the keys of all sub-alarms and leaves the self-diagnostic set alone |
| Text.StripSpec | pyfiles/readstations.py:19-22 | `strip()` yields the slice between leading and trailing whitespace, starting and ending with a non-space character |
| Text.StripEmpty | pyfiles/readstations.py:25 | the stripped code is empty exactly when the code is all whitespace |
| Text.ContainsSpec | pyfiles/api_server.py:119-155 | the substring test `t in s` holds exactly when t occurs in s at some position |
| Stations.BuildStep | pyfiles/readstations.py:17-30 | one more element keeps `BuiltFrom`: it writes its entry over any earlier one when its stripped code is non-empty |
| Stations.BuildStationMap | pyfiles/readstations.py:17-30 | the keys are exactly the non-empty stripped codes; each maps to the stripped attributes of the last element with it, all three present, "" when absent; there are at most as many entries as elements |
| Stations.InfoOf | pyfiles/readstations.py:20-29 | an entry always has all three keys, name, workshop and ele_section |
| Dicts.Put | pyfiles/gen_report.py:99-100 | `d[k] = v` adds k to the keys, keeps keys distinct, appends a new key and keeps the length for an old one |
| Dicts.GetPut | pyfiles/gen_report.py:99-100 | after `d[k] = v`, k reads v and every other key reads as before |
| Dicts.TallyGet | pyfiles/gen_report.py:99-100 | each key's tally is the sum of its pairs' counts |
| Dicts.TallyKeys | pyfiles/gen_report.py:99-100 | a key is tallied exactly when some pair carries it |
| Dicts.TallyTotal | pyfiles/gen_report.py:99-100 | the tally lists no key twice and its values add up to the total count |
| OfflineReport.AggregateStations | pyfiles/gen_report.py:88-101 | the station loop produces the workshop tally, the section tally and the mapped station list of `AggregateOf` |
| OfflineReport.CountsByKey | pyfiles/gen_report.py:92-100 | in the workshop (section) tally each key's count is the sum over the stations under it; a key is present iff some station is under it; no key is repeated; the values add up to the input total |
| OfflineReport.KeyedTotal | pyfiles/gen_report.py:99-100 | keying the rows keeps every count |
| OfflineReport.MappedStationAt | pyfiles/gen_report.py:95-101 | station i is listed, in input order, by its directory name or its stripped code, with its own count |
| OfflineReport.UnmappedStation | pyfiles/gen_report.py:93-97 | an unknown code is kept under its own name, the unknown workshop and the unknown section |
| OfflineReport.MapDevices | pyfiles/gen_report.py:103-106 | every (code, count) becomes (name, count), in input order and length |
| OfflineReport.UnmappedDeviceName | pyfiles/gen_report.py:105 | an unnamed code is shown as "Type " plus decimal text from which the code reads back |
| OfflineReport.UnmappedDeviceNamesDiffer | pyfiles/gen_report.py:105 | two different unnamed codes are shown differently, and never as a named type |
| Numerals.ParseDecimalRoundTrip | pyfiles/gen_report.py:105 | every integer is read back from its decimal text |
| Numerals.DecimalInjective | pyfiles/gen_report.py:105 | distinct integers have distinct decimal text |
| OfflineReport.InternalExternalSplit | pyfiles/gen_report.py:60-63 | with keys only in 1..3, the internal and external lines add up to the three level lines, and the internal line is negative exactly when the external count exceeds them |
| OfflineReport.LevelLinesAddUp | pyfiles/gen_report.py:60-62 | with keys only in 1..3, the three level lines add up to the total |
| OfflineReport.EscapeCellReplaces | pyfiles/gen_report.py:154 | the one-pass escape equals the two `replace` calls in turn |
| OfflineReport.EscapeDescription | pyfiles/gen_report.py:154 | `safe_desc` is the escaped cell |
| OfflineReport.EscapeCellSpec | pyfiles/gen_report.py:154 | an escaped cell holds no newline, every '\|' in it follows a backslash, and it does not start with '\|' |
| OfflineReport.EscapeCellRoundTrip | pyfiles/gen_report.py:154 | unescaping the cell gives the description with newlines turned into spaces |
| OfflineReport.AppendRows | pyfiles/gen_report.py:144-145 | the loop appends one row per entry, in order |
| OfflineReport.AppendWorkshopRows | pyfiles/gen_report.py:128-129 | workshop rows appear in non-increasing count order, as a permutation of the tally, with ties in first-seen order |
| OfflineReport.AppendStationRows | pyfiles/gen_report.py:136-137 | the station table shows the first ten mapped stations, in input order |
| OfflineReport.AppendIssueRows | pyfiles/gen_report.py:152-155 | the loop appends one escaped row per description, in order |
| OfflineReport.IssueRowsOneLineEach | pyfiles/gen_report.py:152-155 | the description table has exactly one line per description, whatever the descriptions hold |
| Ranking.SortByCountDesc | pyfiles/gen_report.py:128 | the sort is non-increasing by count and a permutation of its input |
| Ranking.SortStable | pyfiles/gen_report.py:128 | for every count, the sort keeps the input order of the entries with that count |
| Ranking.Top | pyfiles/api_server.py:192-193 | `sorted(...)[:n]` has min(n, size) entries, a prefix of the sort, non-increasing |
| Ranking.TopIsLargest | pyfiles/api_server.py:192-193 | no entry left out of the first n has a larger count than one kept |
| Ranking.TopIsSubset | pyfiles/api_server.py:192-193 | the first n entries are entries of the input |
| Ranking.TopStable | pyfiles/api_server.py:192-193 | among the first n, entries with equal counts are a leading run of the input's entries with that count, in input order |

## Left out

- Database access, the two SQL queries and the HTTP layer are not modelled. The grouped rows and the top-ten `top_faults` list are inputs, and `top_faults` is passed through as given.
- File, XML and JSON input and output are not modelled: reading the station map, the alarm configuration and the station XML, and writing the debug JSON and station_map.json. Parsed XML elements are records with optional attributes. A missing or unreadable configuration file is `Load(None)`.
- Printing is not modelled. Neither is the assembly of the Markdown report beyond its table rows and the cell escaping: the header f-string and the level lines are plain text.
- Dates are given as whole days since 1970-01-01. The parsing of the "YYYY-MM-DD" text by `strptime`, and its failure, are not modelled.
- Numerals.ParseHex: reads only plain hexadecimal digits. Python's `int(s, 16)` also accepts a sign, a "0x" prefix, underscores and surrounding whitespace.
- Text.Basename: takes the text after the last '/' or '\\'. The platform's rule for Windows drive letters is not modelled.
- A JSON null in the station map (a key present with value null) is not modelled. A missing key is modelled as None, and read with the default, as `dict.get` does.
- A NULL station code in a query row would make `strip()` raise. The model's station codes are always strings.
- The unused `dtype_name` lookup and the fixed trend placeholder's computation are not modelled. The placeholder values appear in `GetStats`' result.
- OfflineReport.InternalCount: may be negative, as in the source, when the external count exceeds the level total (`InternalExternalSplit` says exactly when). No bound is imposed.
- The hard-coded sample data of the offline report is not modelled. The report functions are generic over their inputs.
