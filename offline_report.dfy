/**
 * The offline Markdown report: per-station alarm counts are folded into
 * workshop and section tallies through the station directory, device codes
 * are named, level counts are totalled, and the table rows are written with
 * alarm descriptions escaped for Markdown table cells.
 */
module OfflineReport {
  import opened Wrappers
  import opened Text
  import opened Numerals
  import opened Dicts
  import opened Ranking
  import opened Stations

  const UNKNOWN_WORKSHOP := "未知车间"
  const UNKNOWN_SECTION := "未知电务段"

  /** The names of the common device type codes. */
  const DEVICE_TYPE_NAMES: map<int, string> := map[
    50 := "ZPW-2000", 23 := "道岔", 25 := "轨道电路", 26 := "信号机", 16 := "列控", 6 := "联锁",
    24 := "电源", 65 := "TSRS", 52 := "RBC", 15 := "列控中心", 5 := "微机监测", 33 := "防灾",
    44 := "GSM-R", 111 := "其他", 51 := "RBC", 40 := "调度集中", 101 := "临时限速", 91 := "安全门",
    1 := "计算机联锁", 27 := "电源屏", 3 := "轨道电路", 90 := "道岔", 4 := "信号机"]

  /** `device_type_map.get(dtype, f"Type {dtype}")` */
  function DeviceName(dtype: int): string {
    if dtype in DEVICE_TYPE_NAMES then DEVICE_TYPE_NAMES[dtype] else "Type " + Decimal(dtype)
  }

  /** A code without a name is shown as "Type " and its decimal digits, from which the code can be read back. */
  lemma UnmappedDeviceName(dtype: int)
    requires dtype !in DEVICE_TYPE_NAMES
    ensures StartsWith(DeviceName(dtype), "Type ")
    ensures ParseDecimal(DeviceName(dtype)[5..]) == Some(dtype)
  {
    assert DeviceName(dtype)[5..] == Decimal(dtype);
    ParseDecimalRoundTrip(dtype);
  }

  /** Two different codes without names are shown differently, and never as a named type. */
  lemma UnmappedDeviceNamesDiffer(a: int, b: int)
    requires a !in DEVICE_TYPE_NAMES && a != b
    ensures b !in DEVICE_TYPE_NAMES ==> DeviceName(a) != DeviceName(b)
    ensures b in DEVICE_TYPE_NAMES ==> DeviceName(a) != DeviceName(b)
  {
    if b !in DEVICE_TYPE_NAMES && DeviceName(a) == DeviceName(b) {
      assert Decimal(a) == DeviceName(a)[5..] == DeviceName(b)[5..] == Decimal(b);
      DecimalInjective(a, b);
    }
    if b in DEVICE_TYPE_NAMES {
      assert |DeviceName(a)| >= 6 && DeviceName(a)[1] == 'y';
      assert |DEVICE_TYPE_NAMES[b]| < 6 || DEVICE_TYPE_NAMES[b][1] != 'y';
    }
  }

  /** The `mapped_devices` loop: every (code, count) becomes (name, count), in input order. */
  method MapDevices(deviceCounts: seq<(int, nat)>) returns (mappedDevices: seq<(string, nat)>)
    ensures |mappedDevices| == |deviceCounts|
    ensures forall i :: 0 <= i < |deviceCounts| ==>
              mappedDevices[i] == (DeviceName(deviceCounts[i].0), deviceCounts[i].1)
  {
    mappedDevices := [];
    for i := 0 to |deviceCounts|
      invariant |mappedDevices| == i
      invariant forall j :: 0 <= j < i ==> mappedDevices[j] == (DeviceName(deviceCounts[j].0), deviceCounts[j].1)
    {
      var dtype := deviceCounts[i].0;
      var dname := if dtype in DEVICE_TYPE_NAMES then DEVICE_TYPE_NAMES[dtype] else "Type " + Decimal(dtype);
      mappedDevices := mappedDevices + [(dname, deviceCounts[i].1)];
    }
  }

  /** The directory entry of a station code, `{}` when it has none. */
  function InfoFor(stationMap: StationMap, code: string): StationInfo {
    var clean := Strip(code);
    if clean in stationMap then stationMap[clean] else StationInfo(None, None, None)
  }

  /** The station's name, its stripped code when the directory does not say. */
  function NameFor(stationMap: StationMap, code: string): string {
    InfoFor(stationMap, code).name.GetOr(Strip(code))
  }

  function WorkshopFor(stationMap: StationMap, code: string): string {
    InfoFor(stationMap, code).workshop.GetOr(UNKNOWN_WORKSHOP)
  }

  function SectionFor(stationMap: StationMap, code: string): string {
    InfoFor(stationMap, code).eleSection.GetOr(UNKNOWN_SECTION)
  }

  /** The two tallies of the station loop: by workshop and by section. */
  datatype Grouping = ByWorkshop | BySection

  /** The key a station's count is tallied under. */
  function KeyFor(stationMap: StationMap, g: Grouping, code: string): string {
    match g
    case ByWorkshop => WorkshopFor(stationMap, code)
    case BySection => SectionFor(stationMap, code)
  }

  /** Each (code, count) row as the (key, count) pair the loop adds. */
  function Keyed(stationMap: StationMap, g: Grouping, stations: seq<(string, nat)>): (r: seq<(string, nat)>)
    ensures |r| == |stations|
  {
    if |stations| == 0 then []
    else Keyed(stationMap, g, stations[..|stations| - 1]) + [(KeyFor(stationMap, g, stations[|stations| - 1].0), stations[|stations| - 1].1)]
  }

  /** `mapped_stations` after the loop. */
  function MappedOf(stationMap: StationMap, stations: seq<(string, nat)>): (r: seq<(string, nat)>)
    ensures |r| == |stations|
  {
    if |stations| == 0 then []
    else MappedOf(stationMap, stations[..|stations| - 1]) + [(NameFor(stationMap, stations[|stations| - 1].0), stations[|stations| - 1].1)]
  }

  /** `workshop_counts`, `ele_section_counts` and `mapped_stations`. */
  datatype Aggregate = Aggregate(
    workshopCounts: Dict<string, nat>,
    sectionCounts: Dict<string, nat>,
    mappedStations: seq<(string, nat)>)

  /** The station loop over the (code, count) rows, in order. */
  function AggregateOf(stationMap: StationMap, stations: seq<(string, nat)>): Aggregate {
    Aggregate(
      Tally(Keyed(stationMap, ByWorkshop, stations)),
      Tally(Keyed(stationMap, BySection, stations)),
      MappedOf(stationMap, stations))
  }

  lemma AggregateStep(stationMap: StationMap, stations: seq<(string, nat)>, i: nat)
    requires i < |stations|
    ensures Tally(Keyed(stationMap, ByWorkshop, stations[..i + 1])) ==
            Add(Tally(Keyed(stationMap, ByWorkshop, stations[..i])), WorkshopFor(stationMap, stations[i].0), stations[i].1)
    ensures Tally(Keyed(stationMap, BySection, stations[..i + 1])) ==
            Add(Tally(Keyed(stationMap, BySection, stations[..i])), SectionFor(stationMap, stations[i].0), stations[i].1)
    ensures MappedOf(stationMap, stations[..i + 1]) ==
            MappedOf(stationMap, stations[..i]) + [(NameFor(stationMap, stations[i].0), stations[i].1)]
  {
    assert stations[..i + 1][..i] == stations[..i];
    TallyAppend(Keyed(stationMap, ByWorkshop, stations[..i]), WorkshopFor(stationMap, stations[i].0), stations[i].1);
    TallyAppend(Keyed(stationMap, BySection, stations[..i]), SectionFor(stationMap, stations[i].0), stations[i].1);
  }

  /** The station loop. */
  method AggregateStations(stationMap: StationMap, stations: seq<(string, nat)>) returns (agg: Aggregate)
    ensures agg == AggregateOf(stationMap, stations)
  {
    var workshopCounts: Dict<string, nat> := [];
    var sectionCounts: Dict<string, nat> := [];
    var mappedStations: seq<(string, nat)> := [];
    for i := 0 to |stations|
      invariant workshopCounts == Tally(Keyed(stationMap, ByWorkshop, stations[..i]))
      invariant sectionCounts == Tally(Keyed(stationMap, BySection, stations[..i]))
      invariant mappedStations == MappedOf(stationMap, stations[..i])
    {
      AggregateStep(stationMap, stations, i);
      var code := stations[i].0;
      var count := stations[i].1;
      var cleanCode := Strip(code);
      var info := if cleanCode in stationMap then stationMap[cleanCode] else StationInfo(None, None, None);
      var name := info.name.GetOr(cleanCode);
      var workshop := info.workshop.GetOr(UNKNOWN_WORKSHOP);
      var section := info.eleSection.GetOr(UNKNOWN_SECTION);
      workshopCounts := Add(workshopCounts, workshop, count);
      sectionCounts := Add(sectionCounts, section, count);
      mappedStations := mappedStations + [(name, count)];
    }
    assert stations[..|stations|] == stations;
    agg := Aggregate(workshopCounts, sectionCounts, mappedStations);
  }

  /** Row `i` becomes the pair of its key and its own count. */
  lemma {:induction false} KeyedAt(stationMap: StationMap, g: Grouping, stations: seq<(string, nat)>, i: nat)
    requires i < |stations|
    ensures Keyed(stationMap, g, stations)[i] == (KeyFor(stationMap, g, stations[i].0), stations[i].1)
  {
    if i < |stations| - 1 {
      KeyedAt(stationMap, g, stations[..|stations| - 1], i);
    }
  }

  /** Keying the rows keeps every count. */
  lemma {:induction false} KeyedTotal(stationMap: StationMap, g: Grouping, stations: seq<(string, nat)>)
    ensures Total(Keyed(stationMap, g, stations)) == Total(stations)
  {
    if |stations| > 0 {
      var k := Keyed(stationMap, g, stations);
      KeyedTotal(stationMap, g, stations[..|stations| - 1]);
      assert k[..|k| - 1] == Keyed(stationMap, g, stations[..|stations| - 1]);
    }
  }

  /**
   * The workshop (section) tally: each key's count is the sum of the counts
   * of the stations under it, a key is present exactly when some station is
   * under it, no key is listed twice, and the values add up to the total of
   * the input counts.
   */
  lemma CountsByKey(stationMap: StationMap, g: Grouping, stations: seq<(string, nat)>, k: string)
    ensures var counts := Tally(Keyed(stationMap, g, stations));
      && (Get<string, nat>(counts, k, 0) ==
          CountFor(Keyed(stationMap, g, stations), k))
      && (k in Keys(counts) <==> exists i :: 0 <= i < |stations| && KeyFor(stationMap, g, stations[i].0) == k)
      && Distinct(counts)
      && SumBy<string, nat>(counts, Id) == Total(stations)
  {
    var keyed := Keyed(stationMap, g, stations);
    TallyGet(keyed, k);
    TallyKeys(keyed, k);
    TallyTotal(keyed);
    KeyedTotal(stationMap, g, stations);
    if exists i :: 0 <= i < |stations| && KeyFor(stationMap, g, stations[i].0) == k {
      var i :| 0 <= i < |stations| && KeyFor(stationMap, g, stations[i].0) == k;
      KeyedAt(stationMap, g, stations, i);
    }
    if exists i :: 0 <= i < |keyed| && keyed[i].0 == k {
      var i :| 0 <= i < |keyed| && keyed[i].0 == k;
      KeyedAt(stationMap, g, stations, i);
    }
  }

  /** Station `i` is listed by its directory name, or its code when unmapped, with its own count, in input order. */
  lemma {:induction false} MappedStationAt(stationMap: StationMap, stations: seq<(string, nat)>, i: nat)
    requires i < |stations|
    ensures |MappedOf(stationMap, stations)| == |stations|
    ensures MappedOf(stationMap, stations)[i] == (NameFor(stationMap, stations[i].0), stations[i].1)
  {
    if i < |stations| - 1 {
      MappedStationAt(stationMap, stations[..|stations| - 1], i);
    }
  }

  /** A code the directory does not know is kept, under its own name, the unknown workshop and the unknown section. */
  lemma UnmappedStation(stationMap: StationMap, code: string)
    requires Strip(code) !in stationMap
    ensures NameFor(stationMap, code) == Strip(code)
    ensures WorkshopFor(stationMap, code) == UNKNOWN_WORKSHOP
    ensures SectionFor(stationMap, code) == UNKNOWN_SECTION
  {
  }

  /** `sum(alarm_level_counts.values())` */
  function SumLevels(levelCounts: Dict<int, nat>): nat {
    if |levelCounts| == 0 then 0 else levelCounts[0].1 + SumLevels(levelCounts[1..])
  }

  /** `internal_cnt = total_alarms - external_cnt`; negative when the external count is the larger. */
  function InternalCount(levelCounts: Dict<int, nat>, externalCnt: nat): int {
    SumLevels(levelCounts) - externalCnt
  }

  /**
   * When the level dictionary holds only levels 1, 2 and 3, the three level
   * lines of the report (`get(level, 0)`) add up to its total.
   */
  lemma {:induction false} LevelLinesAddUp(levelCounts: Dict<int, nat>)
    requires Distinct(levelCounts)
    requires forall i :: 0 <= i < |levelCounts| ==> 1 <= levelCounts[i].0 <= 3
    ensures Get<int, nat>(levelCounts, 1, 0) + Get<int, nat>(levelCounts, 2, 0) + Get<int, nat>(levelCounts, 3, 0) ==
            SumLevels(levelCounts)
  {
    if |levelCounts| > 0 {
      var rest := levelCounts[1..];
      LevelLinesAddUp(rest);
      GetAbsent<int, nat>(rest, levelCounts[0].0, 0);
    }
  }

  /**
   * When the level dictionary holds only levels 1, 2 and 3, the report's
   * internal and external lines add up to its three level lines, and the
   * internal line is negative exactly when the external count is larger
   * than their sum.
   */
  lemma InternalExternalSplit(levelCounts: Dict<int, nat>, externalCnt: nat)
    requires Distinct(levelCounts)
    requires forall i :: 0 <= i < |levelCounts| ==> 1 <= levelCounts[i].0 <= 3
    ensures var levels := Get<int, nat>(levelCounts, 1, 0) + Get<int, nat>(levelCounts, 2, 0) + Get<int, nat>(levelCounts, 3, 0);
      InternalCount(levelCounts, externalCnt) + externalCnt == levels &&
      (InternalCount(levelCounts, externalCnt) < 0 <==> externalCnt > levels)
  {
    LevelLinesAddUp(levelCounts);
  }

  /** `s.replace("|", "\\|")` */
  function EscapePipes(s: string): string {
    if |s| == 0 then ""
    else (if s[0] == '|' then "\\|" else [s[0]]) + EscapePipes(s[1..])
  }

  /** `s.replace("\n", " ")` */
  function NewlinesToSpaces(s: string): string {
    if |s| == 0 then ""
    else [if s[0] == '\n' then ' ' else s[0]] + NewlinesToSpaces(s[1..])
  }

  lemma {:induction false} NewlinesToSpacesDistributes(a: string, b: string)
    ensures NewlinesToSpaces(a + b) == NewlinesToSpaces(a) + NewlinesToSpaces(b)
  {
    if |a| > 0 {
      NewlinesToSpacesDistributes(a[1..], b);
      assert (a + b)[0] == a[0];
      assert (a + b)[1..] == a[1..] + b;
    } else {
      assert a + b == b;
    }
  }

  /** What one character of a description becomes in a table cell. */
  function EscapeChar(c: char): string {
    if c == '|' then "\\|" else if c == '\n' then " " else [c]
  }

  /** The description as written into a table cell, in one pass. */
  function EscapeCell(desc: string): string {
    if |desc| == 0 then "" else EscapeChar(desc[0]) + EscapeCell(desc[1..])
  }

  /** The one pass does what the two `replace` calls do in turn. */
  lemma {:induction false} EscapeCellReplaces(desc: string)
    ensures EscapeCell(desc) == NewlinesToSpaces(EscapePipes(desc))
  {
    if |desc| > 0 {
      EscapeCellReplaces(desc[1..]);
      var head := if desc[0] == '|' then "\\|" else [desc[0]];
      assert EscapePipes(desc) == head + EscapePipes(desc[1..]);
      NewlinesToSpacesDistributes(head, EscapePipes(desc[1..]));
      if desc[0] == '|' {
        assert head[1..] == "|";
        assert NewlinesToSpaces(head) == "\\|";
      }
    }
  }

  /** `safe_des`: the two `replace` calls. */
  method EscapeDescription(desc: string) returns (safeDesc: string)
    ensures safeDesc == EscapeCell(desc)
  {
    safeDesc := NewlinesToSpaces(EscapePipes(desc));
    EscapeCellReplaces(desc);
  }

  /** Every '|' is preceded by a backslash. */
  predicate PipesEscaped(s: string) {
    forall i :: 0 <= i < |s| && s[i] == '|' ==> i > 0 && s[i - 1] == '\\'
  }

  /** An escaped cell holds no newline, every '|' in it is preceded by a backslash, and it does not start with '|'. */
  lemma {:induction false} EscapeCellSpec(desc: string)
    ensures '\n' !in EscapeCell(desc)
    ensures PipesEscaped(EscapeCell(desc))
    ensures |EscapeCell(desc)| > 0 ==> EscapeCell(desc)[0] != '|'
  {
    if |desc| > 0 {
      EscapeCellSpec(desc[1..]);
      var head := EscapeChar(desc[0]);
      var tail := EscapeCell(desc[1..]);
      assert EscapeCell(desc) == head + tail;
      forall i | 0 <= i < |head + tail| ensures (head + tail)[i] != '\n' {
        if i >= |head| {
          assert (head + tail)[i] == tail[i - |head|];
        }
      }
      forall i | 0 <= i < |head + tail| && (head + tail)[i] == '|'
        ensures i > 0 && (head + tail)[i - 1] == '\\'
      {
        if i == |head| {
          assert false;
        } else if i > |head| {
          assert (head + tail)[i - 1] == tail[i - 1 - |head|];
        }
      }
    }
  }

  /** Reading a cell back: a backslash followed by '|' stands for '|'. */
  function Unescape(s: string): string {
    if |s| >= 2 && s[0] == '\\' && s[1] == '|' then "|" + Unescape(s[2..])
    else if |s| == 0 then ""
    else [s[0]] + Unescape(s[1..])
  }

  /** Reading an escaped cell back gives the description with its newlines turned into spaces. */
  lemma {:induction false} EscapeCellRoundTrip(desc: string)
    ensures Unescape(EscapeCell(desc)) == NewlinesToSpaces(desc)
  {
    if |desc| > 0 {
      EscapeCellRoundTrip(desc[1..]);
      EscapeCellSpec(desc[1..]);
      var tail := EscapeCell(desc[1..]);
      if desc[0] == '|' {
        assert EscapeCell(desc) == "\\|" + tail;
        assert ("\\|" + tail)[2..] == tail;
      } else {
        var c := if desc[0] == '\n' then ' ' else desc[0];
        assert EscapeCell(desc) == [c] + tail;
        assert ([c] + tail)[1..] == tail;
      }
    }
  }

  /** One Markdown table row: `f"| {cell} | {count} |\n"`. */
  function TableRow(cell: string, count: nat): string {
    "| " + cell + " | " + Decimal(count) + " |\n"
  }

  /** The rows for all entries, in order. */
  function Rows(entries: seq<(string, nat)>): string {
    if |entries| == 0 then "" else Rows(entries[..|entries| - 1]) + TableRow(entries[|entries| - 1].0, entries[|entries| - 1].1)
  }

  lemma RowsStep(report: string, entries: seq<(string, nat)>, i: nat, r: string)
    requires i < |entries| && r == report + Rows(entries[..i])
    ensures r + TableRow(entries[i].0, entries[i].1) == report + Rows(entries[..i + 1])
  {
    assert entries[..i + 1][..i] == entries[..i];
    var prefix := Rows(entries[..i]);
    var row := TableRow(entries[i].0, entries[i].1);
    assert Rows(entries[..i + 1]) == prefix + row;
    ConcatAssociative(report, prefix, row);
  }

  /** A `for name, count in entries: report += ...` loop. */
  method AppendRows(report: string, entries: seq<(string, nat)>) returns (r: string)
    ensures r == report + Rows(entries)
  {
    r := report;
    for i := 0 to |entries|
      invariant r == report + Rows(entries[..i])
    {
      RowsStep(report, entries, i, r);
      r := r + TableRow(entries[i].0, entries[i].1);
    }
    assert entries[..|entries|] == entries;
  }

  /** The workshop table: rows in non-increasing count order, ties in first-seen order. */
  method AppendWorkshopRows(report: string, workshopCounts: Dict<string, nat>) returns (r: string)
    ensures exists sorted ::
              && r == report + Rows(sorted)
              && NonIncreasing(sorted) && multiset(sorted) == multiset(workshopCounts)
              && forall c :: WithCount(sorted, c) == WithCount(workshopCounts, c)
  {
    var sorted := SortByCountDesc(workshopCounts);
    forall c ensures WithCount(sorted, c) == WithCount(workshopCounts, c) {
      SortStable(workshopCounts, c);
    }
    r := AppendRows(report, sorted);
  }

  /** The station table: the first ten mapped stations, in input order. */
  method AppendStationRows(report: string, mappedStations: seq<(string, nat)>) returns (r: string)
    ensures r == report + Rows(mappedStations[..if |mappedStations| < 10 then |mappedStations| else 10])
  {
    r := AppendRows(report, mappedStations[..if |mappedStations| < 10 then |mappedStations| else 10]);
  }

  /** The rows of the top-descriptions table, each description escaped. */
  function IssueRows(topDes: seq<(string, nat)>): string {
    if |topDes| == 0 then ""
    else IssueRows(topDes[..|topDes| - 1]) + TableRow(EscapeCell(topDes[|topDes| - 1].0), topDes[|topDes| - 1].1)
  }

  lemma IssueRowsStep(report: string, topDes: seq<(string, nat)>, i: nat, r: string)
    requires i < |topDes| && r == report + IssueRows(topDes[..i])
    ensures r + TableRow(EscapeCell(topDes[i].0), topDes[i].1) == report + IssueRows(topDes[..i + 1])
  {
    assert topDes[..i + 1][..i] == topDes[..i];
    var prefix := IssueRows(topDes[..i]);
    var row := TableRow(EscapeCell(topDes[i].0), topDes[i].1);
    assert IssueRows(topDes[..i + 1]) == prefix + row;
    ConcatAssociative(report, prefix, row);
  }

  /** Appending to a report one piece at a time; stated once so the row step lemmas stay cheap. */
  lemma ConcatAssociative(a: string, b: string, c: string)
    ensures (a + b) + c == a + (b + c)
  {
  }

  /** The top-descriptions table loop, escaping each description. */
  method AppendIssueRows(report: string, topDes: seq<(string, nat)>) returns (r: string)
    ensures r == report + IssueRows(topDes)
  {
    r := report;
    for i := 0 to |topDes|
      invariant r == report + IssueRows(topDes[..i])
    {
      var safeDesc := EscapeDescription(topDes[i].0);
      IssueRowsStep(report, topDes, i, r);
      r := r + TableRow(safeDesc, topDes[i].1);
    }
    assert topDes[..|topDes|] == topDes;
  }

  /** The number of newlines in a text. */
  function Newlines(s: string): nat {
    if |s| == 0 then 0 else (if s[|s| - 1] == '\n' then 1 else 0) + Newlines(s[..|s| - 1])
  }

  lemma {:induction false} NewlinesAppend(a: string, b: string)
    ensures Newlines(a + b) == Newlines(a) + Newlines(b)
  {
    if |b| > 0 {
      NewlinesAppend(a, b[..|b| - 1]);
      assert (a + b)[..|a + b| - 1] == a + b[..|b| - 1];
    } else {
      assert a + b == a;
    }
  }

  lemma {:induction false} NoNewlines(s: string)
    requires '\n' !in s
    ensures Newlines(s) == 0
  {
    if |s| > 0 {
      NoNewlines(s[..|s| - 1]);
    }
  }

  lemma DecimalHasNoNewline(n: nat)
    ensures '\n' !in Decimal(n)
  {
    assert AllDecimalDigits(Decimal(n));
  }

  /** A row whose cell holds no newline is exactly one line. */
  lemma RowIsOneLine(cell: string, count: nat)
    requires '\n' !in cell
    ensures Newlines(TableRow(cell, count)) == 1
  {
    DecimalHasNoNewline(count);
    NoNewlines("| " + cell + " | " + Decimal(count) + " |");
    NewlinesAppend("| " + cell + " | " + Decimal(count) + " |", "\n");
    assert TableRow(cell, count) == ("| " + cell + " | " + Decimal(count) + " |") + "\n";
  }

  /** The top-descriptions table has exactly one line per description, whatever the descriptions hold. */
  lemma {:induction false} IssueRowsOneLineEach(topDes: seq<(string, nat)>)
    ensures Newlines(IssueRows(topDes)) == |topDes|
  {
    if |topDes| > 0 {
      var init := topDes[..|topDes| - 1];
      IssueRowsOneLineEach(init);
      var last := topDes[|topDes| - 1];
      EscapeCellSpec(last.0);
      RowIsOneLine(EscapeCell(last.0), last.1);
      NewlinesAppend(IssueRows(init), TableRow(EscapeCell(last.0), last.1));
    }
  }
}
