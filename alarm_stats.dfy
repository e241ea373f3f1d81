/**
 * The statistics service's `get_alarm_stats` endpoint: the grouped alarm
 * rows of a date window are classified per maintenance section into four
 * tables (section totals, monitoring self-diagnosis, external interfaces,
 * workshop ranking).
 */
module AlarmStats {
  import opened Wrappers
  import opened Text
  import opened Dicts
  import opened Ranking
  import opened Stations

  const SECONDS_PER_DAY: int := 86400

  /**
   * The query window for the dates `startDay` and `endDay`, given as days
   * since 1970-01-01 (UTC midnight): from the start of the first day up to,
   * excluding, the start of the day after the last.
   */
  function Timestamps(startDay: int, endDay: int): (r: (int, int))
    ensures r.0 % SECONDS_PER_DAY == 0 && r.1 % SECONDS_PER_DAY == 0
    ensures r.0 / SECONDS_PER_DAY == startDay && r.1 / SECONDS_PER_DAY == endDay + 1
  {
    (startDay * SECONDS_PER_DAY, (endDay + 1) * SECONDS_PER_DAY)
  }

  /** `start_ts <= createtime < end_ts` */
  predicate InWindow(window: (int, int), createTime: int) {
    window.0 <= createTime < window.1
  }

  /** A creation time is in the window exactly when the UTC day it falls on is one of the requested days. */
  lemma WindowHoldsWholeDays(startDay: int, endDay: int, createTime: int)
    ensures InWindow(Timestamps(startDay, endDay), createTime) <==>
              startDay <= createTime / SECONDS_PER_DAY <= endDay
  {
    var day := createTime / SECONDS_PER_DAY;
    assert day * SECONDS_PER_DAY <= createTime < (day + 1) * SECONDS_PER_DAY;
    if startDay <= day <= endDay {
      assert startDay * SECONDS_PER_DAY <= day * SECONDS_PER_DAY;
      assert (day + 1) * SECONDS_PER_DAY <= (endDay + 1) * SECONDS_PER_DAY;
    } else if day < startDay {
      assert (day + 1) * SECONDS_PER_DAY <= startDay * SECONDS_PER_DAY;
    } else {
      assert (endDay + 1) * SECONDS_PER_DAY <= day * SECONDS_PER_DAY;
    }
  }

  /** One row of the grouped query: `telename, alarmlevel, devicetype, alarmdes, count(*)`; NULL is None. */
  datatype AlarmRow = AlarmRow(
    telename: string,
    level: Option<int>,
    deviceType: Option<int>,
    description: Option<string>,
    cnt: nat)

  const UNKNOWN_SECTION := "未知电务段"
  const UNKNOWN_WORKSHOP := "未知车间"
  const EXTERNAL_POWER_MARK := "外电网"
  const MONITORING_MARK := "监测"
  const MONITORING_DEVICE := 5

  /** `str(des)`: a NULL description reads as "None". */
  function Str(des: Option<string>): string {
    if des.Some? then des.value else "None"
  }

  /** The station directory entry of a telegraph code, `{}` when it has none. */
  function InfoOf(stationMap: StationMap, telename: string): StationInfo {
    var code := Strip(telename);
    if code in stationMap then stationMap[code] else StationInfo(None, None, None)
  }

  /** The row's maintenance section, "未知电务段" when the directory does not say. */
  function SectionOf(stationMap: StationMap, row: AlarmRow): string {
    InfoOf(stationMap, row.telename).eleSection.GetOr(UNKNOWN_SECTION)
  }

  /** The row's workshop, "未知车间" when the directory does not say. */
  function WorkshopOf(stationMap: StationMap, row: AlarmRow): string {
    InfoOf(stationMap, row.telename).workshop.GetOr(UNKNOWN_WORKSHOP)
  }

  /**
   * A row's station is looked up by its code without surrounding
   * whitespace: a code the directory lacks gives the unknown section and
   * workshop, so the row is left out of the tables, and a known section or
   * workshop is the one the directory entry gives.
   */
  lemma DirectoryLookup(stationMap: StationMap, row: AlarmRow)
    ensures Strip(row.telename) !in stationMap ==>
              SectionOf(stationMap, row) == UNKNOWN_SECTION && WorkshopOf(stationMap, row) == UNKNOWN_WORKSHOP &&
              !Kept(stationMap, row)
    ensures Kept(stationMap, row) ==>
              Strip(row.telename) in stationMap &&
              stationMap[Strip(row.telename)].eleSection == Some(SectionOf(stationMap, row))
    ensures WorkshopOf(stationMap, row) != UNKNOWN_WORKSHOP ==>
              Strip(row.telename) in stationMap &&
              stationMap[Strip(row.telename)].workshop == Some(WorkshopOf(stationMap, row))
  {
  }

  /** The key of the workshop ranking: `f"{section} - {workshop}"`. */
  function WorkshopKey(stationMap: StationMap, row: AlarmRow): string {
    SectionOf(stationMap, row) + " - " + WorkshopOf(stationMap, row)
  }

  /** Rows of stations with no known section are counted in the grand total only. */
  predicate Kept(stationMap: StationMap, row: AlarmRow) {
    SectionOf(stationMap, row) != UNKNOWN_SECTION
  }

  predicate IsExternalPower(row: AlarmRow) {
    Contains(Str(row.description), EXTERNAL_POWER_MARK)
  }

  /** Monitoring-system rows go to table 2, all others to table 3. */
  predicate IsSelfDiagnosis(row: AlarmRow) {
    row.deviceType == Some(MONITORING_DEVICE) || Contains(Str(row.description), MONITORING_MARK)
  }

  /** The keys of the table 2 and table 3 breakdowns. */
  datatype Bucket = Total | SelfAlarm | ElecChar | SwitchNoRep | Power | Zpw2000 | Atp | Interlock | Gap | Other {
    function Key(): (r: string)
      ensures Total? <==> r == "total"
    {
      match this
      case Total => "total"
      case SelfAlarm => "self_alarm"
      case ElecChar => "elec_char"
      case SwitchNoRep => "switch_no_rep"
      case Power => "power"
      case Zpw2000 => "zpw2000"
      case Atp => "atp"
      case Interlock => "interlock"
      case Gap => "gap"
      case Other => "other"
    }
  }

  /** Different buckets are written under different keys of the breakdown. */
  lemma KeyInjective(a: Bucket, b: Bucket)
    ensures a.Key() == b.Key() <==> a == b
  {
  }

  predicate SelfDiagnosisBucket(b: Bucket) {
    b == SelfAlarm || b == ElecChar || b == SwitchNoRep || b == Other
  }

  predicate ExternalBucket(b: Bucket) {
    b == Power || b == Zpw2000 || b == Atp || b == Interlock || b == Gap || b == Other
  }

  /** The table 2 bucket of a monitoring row, first match wins. */
  function SelfDiagnosisBucketOf(row: AlarmRow): (b: Bucket)
    ensures SelfDiagnosisBucket(b)
    ensures var des := Str(row.description);
      b == SelfAlarm <==> Contains(des, "通信") || Contains(des, "状态")
    ensures var des := Str(row.description);
      b == ElecChar <==> !Contains(des, "通信") && !Contains(des, "状态") && Contains(des, "模拟量")
    ensures var des := Str(row.description);
      b == SwitchNoRep <==>
        !Contains(des, "通信") && !Contains(des, "状态") && !Contains(des, "模拟量") && Contains(des, "无表示")
    ensures var des := Str(row.description);
      b == Other <==>
        !Contains(des, "通信") && !Contains(des, "状态") && !Contains(des, "模拟量") && !Contains(des, "无表示")
  {
    var des := Str(row.description);
    if Contains(des, "通信") || Contains(des, "状态") then SelfAlarm
    else if Contains(des, "模拟量") then ElecChar
    else if Contains(des, "无表示") then SwitchNoRep
    else Other
  }

  function DeviceIn(row: AlarmRow, codes: set<int>): bool {
    row.deviceType.Some? && row.deviceType.value in codes
  }

  /** The table 3 bucket of an external-interface row, first match wins. */
  function ExternalBucketOf(row: AlarmRow): (b: Bucket)
    ensures ExternalBucket(b)
    ensures b == Power <==> DeviceIn(row, {24, 27})
    ensures b == Zpw2000 <==> !DeviceIn(row, {24, 27}) && DeviceIn(row, {50})
    ensures b == Atp <==> !DeviceIn(row, {24, 27, 50}) && DeviceIn(row, {15, 16, 52, 51})
    ensures b == Interlock <==> !DeviceIn(row, {24, 27, 50, 15, 16, 52, 51}) && DeviceIn(row, {1, 6})
    ensures b == Gap <==>
              !DeviceIn(row, {24, 27, 50, 15, 16, 52, 51, 1, 6}) && Contains(Str(row.description), "缺口")
    ensures b == Other <==>
              !DeviceIn(row, {24, 27, 50, 15, 16, 52, 51, 1, 6}) && !Contains(Str(row.description), "缺口")
  {
    if DeviceIn(row, {24, 27}) then Power
    else if DeviceIn(row, {50}) then Zpw2000
    else if DeviceIn(row, {15, 16, 52, 51}) then Atp
    else if DeviceIn(row, {1, 6}) then Interlock
    else if Contains(Str(row.description), "缺口") then Gap
    else Other
  }

  /** One entry of table 1. */
  datatype SectionTally = SectionTally(total: nat, level1: nat, level2: nat, level3: nat, totalNoExt: nat)

  const ZERO_TALLY := SectionTally(0, 0, 0, 0, 0)

  type Breakdown = Dict<Bucket, nat>

  /** Everything the row loop accumulates. */
  datatype Tallies = Tallies(
    totalAlarms: nat,
    table1: Dict<string, SectionTally>,
    table2: Dict<string, Breakdown>,
    table3: Dict<string, Breakdown>,
    workshops: Dict<string, nat>)

  const NO_TALLIES := Tallies(0, [], [], [], [])

  /** A row's contribution to its section's table 1 entry. */
  function CountRow(s: SectionTally, row: AlarmRow): SectionTally {
    SectionTally(
      s.total + row.cnt,
      if row.level == Some(1) then s.level1 + row.cnt else s.level1,
      if row.level == Some(2) then s.level2 + row.cnt else s.level2,
      if row.level == Some(3) then s.level3 + row.cnt else s.level3,
      if !IsExternalPower(row) then s.totalNoExt + row.cnt else s.totalNoExt)
  }

  /** `row["total"] += cnt; row[b] += cnt` */
  function CountIn(bd: Breakdown, b: Bucket, cnt: nat): Breakdown {
    Add(Add(bd, Total, cnt), b, cnt)
  }

  /** One pass of the row loop. */
  function Step(stationMap: StationMap, t: Tallies, row: AlarmRow): Tallies {
    var section := SectionOf(stationMap, row);
    if section == UNKNOWN_SECTION then t.(totalAlarms := t.totalAlarms + row.cnt)
    else
      Tallies(
        t.totalAlarms + row.cnt,
        Put(t.table1, section, CountRow(Get(t.table1, section, ZERO_TALLY), row)),
        if IsSelfDiagnosis(row)
        then Put(t.table2, section, CountIn(Get(t.table2, section, []), SelfDiagnosisBucketOf(row), row.cnt))
        else t.table2,
        if IsSelfDiagnosis(row) then t.table3
        else Put(t.table3, section, CountIn(Get(t.table3, section, []), ExternalBucketOf(row), row.cnt)),
        Add(t.workshops, WorkshopKey(stationMap, row), row.cnt))
  }

  /** The row loop over the rows in query order. */
  function TallyOf(stationMap: StationMap, rows: seq<AlarmRow>): Tallies {
    if |rows| == 0 then NO_TALLIES
    else Step(stationMap, TallyOf(stationMap, rows[..|rows| - 1]), rows[|rows| - 1])
  }

  /** One pass of the row loop for a row whose section is known, as the loop writes it. */
  lemma StepKept(stationMap: StationMap, t: Tallies, row: AlarmRow,
                 table1: Dict<string, SectionTally>, table2: Dict<string, Breakdown>,
                 table3: Dict<string, Breakdown>, workshops: Dict<string, nat>)
    requires Kept(stationMap, row)
    requires table1 == Put(t.table1, SectionOf(stationMap, row), CountRow(Get(t.table1, SectionOf(stationMap, row), ZERO_TALLY), row))
    requires IsSelfDiagnosis(row) ==>
               table2 == Put(t.table2, SectionOf(stationMap, row),
                             CountIn(Get(t.table2, SectionOf(stationMap, row), []), SelfDiagnosisBucketOf(row), row.cnt)) &&
               table3 == t.table3
    requires !IsSelfDiagnosis(row) ==>
               table3 == Put(t.table3, SectionOf(stationMap, row),
                             CountIn(Get(t.table3, SectionOf(stationMap, row), []), ExternalBucketOf(row), row.cnt)) &&
               table2 == t.table2
    requires workshops == Add(t.workshops, WorkshopKey(stationMap, row), row.cnt)
    ensures Step(stationMap, t, row) == Tallies(t.totalAlarms + row.cnt, table1, table2, table3, workshops)
  {
  }

  /** The table 1 update of one row: total, its level's count, and the count without external power. */
  method CountSection(s: SectionTally, row: AlarmRow, isExternalPower: bool) returns (sStat: SectionTally)
    requires isExternalPower == IsExternalPower(row)
    ensures sStat == CountRow(s, row)
  {
    var cnt := row.cnt;
    sStat := s.(total := s.total + cnt);
    if row.level == Some(1) {
      sStat := sStat.(level1 := sStat.level1 + cnt);
    } else if row.level == Some(2) {
      sStat := sStat.(level2 := sStat.level2 + cnt);
    } else if row.level == Some(3) {
      sStat := sStat.(level3 := sStat.level3 + cnt);
    }
    if !isExternalPower {
      sStat := sStat.(totalNoExt := sStat.totalNoExt + cnt);
    }
  }

  /** The keyword chain of table 2. */
  method SelfDiagnosisBucketFor(row: AlarmRow, des: string) returns (bucket: Bucket)
    requires des == Str(row.description)
    ensures bucket == SelfDiagnosisBucketOf(row)
  {
    if Contains(des, "通信") || Contains(des, "状态") {
      bucket := SelfAlarm;
    } else if Contains(des, "模拟量") {
      bucket := ElecChar;
    } else if Contains(des, "无表示") {
      bucket := SwitchNoRep;
    } else {
      bucket := Other;
    }
  }

  /** The device-type and keyword chain of table 3. */
  method ExternalBucketFor(row: AlarmRow, des: string) returns (bucket: Bucket)
    requires des == Str(row.description)
    ensures bucket == ExternalBucketOf(row)
  {
    var deviceType := row.deviceType;
    if deviceType == Some(24) || deviceType == Some(27) {
      bucket := Power;
    } else if deviceType == Some(50) {
      bucket := Zpw2000;
    } else if deviceType == Some(15) || deviceType == Some(16) || deviceType == Some(52) || deviceType == Some(51) {
      bucket := Atp;
    } else if deviceType == Some(1) || deviceType == Some(6) {
      bucket := Interlock;
    } else if Contains(des, "缺口") {
      bucket := Gap;
    } else {
      bucket := Other;
    }
  }

  /** One pass of the row loop of `get_stats`. */
  method CountAlarmRow(stationMap: StationMap, t: Tallies, row: AlarmRow) returns (r: Tallies)
    ensures r == Step(stationMap, t, row)
  {
    var telename := Strip(row.telename);
    var cnt := row.cnt;
    var totalAlarms := t.totalAlarms + cnt;
    var info := if telename in stationMap then stationMap[telename] else StationInfo(None, None, None);
    var section := info.eleSection.GetOr(UNKNOWN_SECTION);
    var workshop := info.workshop.GetOr(UNKNOWN_WORKSHOP);
    assert section == SectionOf(stationMap, row) && workshop == WorkshopOf(stationMap, row);
    if section == UNKNOWN_SECTION {
      return t.(totalAlarms := totalAlarms);
    }
    var des := Str(row.description);
    var isExternalPower := Contains(des, EXTERNAL_POWER_MARK);

    var sStat := CountSection(Get(t.table1, section, ZERO_TALLY), row, isExternalPower);
    var table1 := Put(t.table1, section, sStat);

    var table2 := t.table2;
    var table3 := t.table3;
    if row.deviceType == Some(MONITORING_DEVICE) || Contains(des, MONITORING_MARK) {
      var t2Row := Get(table2, section, []);
      var bucket := SelfDiagnosisBucketFor(row, des);
      t2Row := Add(Add(t2Row, Total, cnt), bucket, cnt);
      table2 := Put(table2, section, t2Row);
    } else {
      var t3Row := Get(table3, section, []);
      var bucket := ExternalBucketFor(row, des);
      t3Row := Add(Add(t3Row, Total, cnt), bucket, cnt);
      table3 := Put(table3, section, t3Row);
    }

    var workshopStats := Add(t.workshops, section + " - " + workshop, cnt);
    StepKept(stationMap, t, row, table1, table2, table3, workshopStats);
    r := Tallies(totalAlarms, table1, table2, table3, workshopStats);
  }

  /** The row loop of `get_stats`. */
  method TallyRows(stationMap: StationMap, rows: seq<AlarmRow>) returns (t: Tallies)
    ensures t == TallyOf(stationMap, rows)
  {
    t := NO_TALLIES;
    for i := 0 to |rows|
      invariant t == TallyOf(stationMap, rows[..i])
    {
      assert rows[..i + 1][..i] == rows[..i];
      t := CountAlarmRow(stationMap, t, rows[i]);
    }
    assert rows[..|rows|] == rows;
  }

  /** Every number the row loop keeps, named. */
  datatype Counter =
    | Grand
    | KnownSection
    | SectionTotal(section: string)
    | SectionLevel(section: string, level: int)
    | SectionNoExternal(section: string)
    | SelfDiagnosis(section: string, bucket: Bucket)
    | ExternalInterface(section: string, bucket: Bucket)
    | Workshop(key: string)

  /**
   * The value of a counter; a key the loop never wrote reads as zero, as in
   * a `defaultdict`. The rows of a known section are counted by the sum of
   * the table 1 totals.
   */
  function Read(t: Tallies, c: Counter): int {
    match c
    case Grand => t.totalAlarms
    case KnownSection => SumBy(t.table1, TotalOf)
    case SectionTotal(s) => Get(t.table1, s, ZERO_TALLY).total
    case SectionLevel(s, n) =>
      var x := Get(t.table1, s, ZERO_TALLY);
      if n == 1 then x.level1 else if n == 2 then x.level2 else if n == 3 then x.level3 else 0
    case SectionNoExternal(s) => Get(t.table1, s, ZERO_TALLY).totalNoExt
    case SelfDiagnosis(s, b) => Get<Bucket, nat>(Get(t.table2, s, []), b, 0)
    case ExternalInterface(s, b) => Get<Bucket, nat>(Get(t.table3, s, []), b, 0)
    case Workshop(k) => Get<string, nat>(t.workshops, k, 0)
  }

  predicate InSection(stationMap: StationMap, row: AlarmRow, s: string) {
    Kept(stationMap, row) && SectionOf(stationMap, row) == s
  }

  /** Whether a row counts towards a counter, read off the classification rules one by one. */
  predicate Hits(stationMap: StationMap, row: AlarmRow, c: Counter) {
    match c
    case Grand => true
    case KnownSection => Kept(stationMap, row)
    case SectionTotal(s) => InSection(stationMap, row, s)
    case SectionLevel(s, n) => InSection(stationMap, row, s) && (n == 1 || n == 2 || n == 3) && row.level == Some(n)
    case SectionNoExternal(s) => InSection(stationMap, row, s) && !IsExternalPower(row)
    case SelfDiagnosis(s, b) =>
      InSection(stationMap, row, s) && IsSelfDiagnosis(row) && (b == Total || b == SelfDiagnosisBucketOf(row))
    case ExternalInterface(s, b) =>
      InSection(stationMap, row, s) && !IsSelfDiagnosis(row) && (b == Total || b == ExternalBucketOf(row))
    case Workshop(k) => Kept(stationMap, row) && WorkshopKey(stationMap, row) == k
  }

  /** A row's contribution to a counter. */
  function HitCount(stationMap: StationMap, row: AlarmRow, c: Counter): nat {
    if Hits(stationMap, row, c) then row.cnt else 0
  }

  /** The alarm count of the rows that hit a counter. */
  function SumHits(stationMap: StationMap, rows: seq<AlarmRow>, c: Counter): nat {
    if |rows| == 0 then 0
    else SumHits(stationMap, rows[..|rows| - 1], c) + HitCount(stationMap, rows[|rows| - 1], c)
  }

  lemma ReadTable1Step(stationMap: StationMap, t: Tallies, row: AlarmRow, c: Counter)
    requires c.SectionTotal? || c.SectionLevel? || c.SectionNoExternal?
    ensures Read(Step(stationMap, t, row), c) == Read(t, c) + (if Hits(stationMap, row, c) then row.cnt else 0)
  {
    ReadSection(t, c.section);
    ReadSection(Step(stationMap, t, row), c.section);
    SectionStep(stationMap, t, row, c.section);
  }

  /** A section's table 1 entry after one row: counted when the row belongs to it, untouched otherwise. */
  lemma SectionStep(stationMap: StationMap, t: Tallies, row: AlarmRow, s: string)
    ensures Get(Step(stationMap, t, row).table1, s, ZERO_TALLY) ==
            if InSection(stationMap, row, s) then CountRow(Get(t.table1, s, ZERO_TALLY), row) else Get(t.table1, s, ZERO_TALLY)
  {
    var section := SectionOf(stationMap, row);
    if section != UNKNOWN_SECTION {
      GetPut(t.table1, section, CountRow(Get(t.table1, section, ZERO_TALLY), row), s, ZERO_TALLY);
    }
  }

  lemma ReadCountIn(bd: Breakdown, b: Bucket, cnt: nat, j: Bucket)
    requires b != Total
    ensures Get<Bucket, nat>(CountIn(bd, b, cnt), j, 0) == Get<Bucket, nat>(bd, j, 0) + (if j == Total || j == b then cnt else 0)
  {
    AddWhen<Bucket>(bd, true, Total, cnt, j);
    AddWhen<Bucket>(Add(bd, Total, cnt), true, b, cnt, j);
  }

  lemma ReadTable2Step(stationMap: StationMap, t: Tallies, row: AlarmRow, s: string, j: Bucket)
    ensures Read(Step(stationMap, t, row), SelfDiagnosis(s, j)) ==
            Read(t, SelfDiagnosis(s, j)) + (if Hits(stationMap, row, SelfDiagnosis(s, j)) then row.cnt else 0)
  {
    var section := SectionOf(stationMap, row);
    if section != UNKNOWN_SECTION && IsSelfDiagnosis(row) {
      var bd := Get(t.table2, section, []);
      GetPut(t.table2, section, CountIn(bd, SelfDiagnosisBucketOf(row), row.cnt), s, []);
      ReadCountIn(bd, SelfDiagnosisBucketOf(row), row.cnt, j);
    }
  }

  lemma ReadTable3Step(stationMap: StationMap, t: Tallies, row: AlarmRow, s: string, j: Bucket)
    ensures Read(Step(stationMap, t, row), ExternalInterface(s, j)) ==
            Read(t, ExternalInterface(s, j)) + (if Hits(stationMap, row, ExternalInterface(s, j)) then row.cnt else 0)
  {
    var section := SectionOf(stationMap, row);
    if section != UNKNOWN_SECTION && !IsSelfDiagnosis(row) {
      var bd := Get(t.table3, section, []);
      GetPut(t.table3, section, CountIn(bd, ExternalBucketOf(row), row.cnt), s, []);
      ReadCountIn(bd, ExternalBucketOf(row), row.cnt, j);
    }
  }

  lemma ReadWorkshopStep(stationMap: StationMap, t: Tallies, row: AlarmRow, k: string)
    ensures Read(Step(stationMap, t, row), Workshop(k)) ==
            Read(t, Workshop(k)) + (if Hits(stationMap, row, Workshop(k)) then row.cnt else 0)
  {
    StepWorkshops(stationMap, t, row);
    AddWhen(t.workshops, Kept(stationMap, row), WorkshopKey(stationMap, row), row.cnt, k);
  }

  /** Reading a counter dictionary after a `+=` that happens only when `b` holds. */
  lemma AddWhen<K>(d: Dict<K, nat>, b: bool, key: K, cnt: nat, k: K)
    ensures Get<K, nat>(if b then Add(d, key, cnt) else d, k, 0) == Get<K, nat>(d, k, 0) + (if b && key == k then cnt else 0)
  {
    if b {
      GetPut<K, nat>(d, key, Get<K, nat>(d, key, 0) + cnt, k, 0);
    }
  }

  lemma StepWorkshops(stationMap: StationMap, t: Tallies, row: AlarmRow)
    ensures Step(stationMap, t, row).workshops ==
            if Kept(stationMap, row) then Add(t.workshops, WorkshopKey(stationMap, row), row.cnt) else t.workshops
  {
  }

  /** One row adds its count to exactly the counters it hits. */
  lemma ReadStep(stationMap: StationMap, t: Tallies, row: AlarmRow, c: Counter)
    ensures Read(Step(stationMap, t, row), c) == Read(t, c) + (if Hits(stationMap, row, c) then row.cnt else 0)
  {
    match c
    case Grand =>
    case KnownSection => SumsStep(stationMap, t, row);
    case SectionTotal(_) => ReadTable1Step(stationMap, t, row, c);
    case SectionLevel(_, _) => ReadTable1Step(stationMap, t, row, c);
    case SectionNoExternal(_) => ReadTable1Step(stationMap, t, row, c);
    case SelfDiagnosis(s, j) => ReadTable2Step(stationMap, t, row, s, j);
    case ExternalInterface(s, j) => ReadTable3Step(stationMap, t, row, s, j);
    case Workshop(k) => ReadWorkshopStep(stationMap, t, row, k);
  }

  /**
   * Every number in the four tables, and the grand total, is the alarm
   * count summed over exactly the rows the classification rules send to it.
   */
  lemma {:induction false} TallyCounts(stationMap: StationMap, rows: seq<AlarmRow>, c: Counter)
    ensures Read(TallyOf(stationMap, rows), c) == SumHits(stationMap, rows, c)
  {
    if |rows| > 0 {
      TallyCounts(stationMap, rows[..|rows| - 1], c);
      ReadStep(stationMap, TallyOf(stationMap, rows[..|rows| - 1]), rows[|rows| - 1], c);
    }
  }

  /** The four keyed tables of the row loop. */
  datatype Table = SectionTable | SelfDiagnosisTable | ExternalTable | WorkshopTable

  /** The keys a table holds. */
  function KeysOf(t: Tallies, tbl: Table): set<string> {
    match tbl
    case SectionTable => Keys(t.table1)
    case SelfDiagnosisTable => Keys(t.table2)
    case ExternalTable => Keys(t.table3)
    case WorkshopTable => Keys(t.workshops)
  }

  /** Whether the row loop writes a row into a table. */
  predicate Listed(stationMap: StationMap, tbl: Table, row: AlarmRow) {
    Kept(stationMap, row) &&
    match tbl
    case SelfDiagnosisTable => IsSelfDiagnosis(row)
    case ExternalTable => !IsSelfDiagnosis(row)
    case _ => true
  }

  /** The key a row is written under: its workshop key in the ranking, its section elsewhere. */
  function ListKey(stationMap: StationMap, tbl: Table, row: AlarmRow): string {
    if tbl == WorkshopTable then WorkshopKey(stationMap, row) else SectionOf(stationMap, row)
  }

  /** The keys of the listed rows, gathered in loop order. */
  ghost function ListedKeys(stationMap: StationMap, tbl: Table, rows: seq<AlarmRow>): set<string> {
    if |rows| == 0 then {}
    else
      var last := rows[|rows| - 1];
      ListedKeys(stationMap, tbl, rows[..|rows| - 1]) +
      (if Listed(stationMap, tbl, last) then {ListKey(stationMap, tbl, last)} else {})
  }

  lemma KeysStep(stationMap: StationMap, t: Tallies, row: AlarmRow, tbl: Table)
    ensures KeysOf(Step(stationMap, t, row), tbl) ==
            KeysOf(t, tbl) + (if Listed(stationMap, tbl, row) then {ListKey(stationMap, tbl, row)} else {})
  {
    match tbl
    case SectionTable =>
    case SelfDiagnosisTable => StepTable2(stationMap, t, row);
    case ExternalTable => StepTable3(stationMap, t, row);
    case WorkshopTable => StepWorkshops(stationMap, t, row);
  }

  lemma {:induction false} TableKeySet(stationMap: StationMap, rows: seq<AlarmRow>, tbl: Table)
    ensures KeysOf(TallyOf(stationMap, rows), tbl) == ListedKeys(stationMap, tbl, rows)
  {
    if |rows| > 0 {
      TableKeySet(stationMap, rows[..|rows| - 1], tbl);
      KeysStep(stationMap, TallyOf(stationMap, rows[..|rows| - 1]), rows[|rows| - 1], tbl);
    }
  }

  lemma {:induction false} ListedKeysHas(stationMap: StationMap, tbl: Table, rows: seq<AlarmRow>, k: string)
    ensures k in ListedKeys(stationMap, tbl, rows) <==>
              exists i :: 0 <= i < |rows| && Listed(stationMap, tbl, rows[i]) && ListKey(stationMap, tbl, rows[i]) == k
  {
    if |rows| > 0 {
      var init := rows[..|rows| - 1];
      ListedKeysHas(stationMap, tbl, init, k);
      if exists i :: 0 <= i < |rows| && Listed(stationMap, tbl, rows[i]) && ListKey(stationMap, tbl, rows[i]) == k {
        var i :| 0 <= i < |rows| && Listed(stationMap, tbl, rows[i]) && ListKey(stationMap, tbl, rows[i]) == k;
        if i < |rows| - 1 {
          assert init[i] == rows[i];
        }
      }
      if k in ListedKeys(stationMap, tbl, init) {
        var i :| 0 <= i < |init| && Listed(stationMap, tbl, init[i]) && ListKey(stationMap, tbl, init[i]) == k;
        assert init[i] == rows[i];
      }
    }
  }

  /**
   * Each table has a key for every section (in the ranking, every
   * "section - workshop") of a row the loop writes into it, and no other.
   */
  lemma TableKeys(stationMap: StationMap, rows: seq<AlarmRow>, tbl: Table, k: string)
    ensures k in KeysOf(TallyOf(stationMap, rows), tbl) <==>
              exists i :: 0 <= i < |rows| && Listed(stationMap, tbl, rows[i]) && ListKey(stationMap, tbl, rows[i]) == k
  {
    TableKeySet(stationMap, rows, tbl);
    ListedKeysHas(stationMap, tbl, rows, k);
  }

  /** Table 1 never lists the unknown section, and nor do tables 2 and 3. */
  lemma NoUnknownSection(stationMap: StationMap, rows: seq<AlarmRow>)
    ensures UNKNOWN_SECTION !in Keys(TallyOf(stationMap, rows).table1)
    ensures UNKNOWN_SECTION !in Keys(TallyOf(stationMap, rows).table2)
    ensures UNKNOWN_SECTION !in Keys(TallyOf(stationMap, rows).table3)
  {
    TableKeys(stationMap, rows, SectionTable, UNKNOWN_SECTION);
    TableKeys(stationMap, rows, SelfDiagnosisTable, UNKNOWN_SECTION);
    TableKeys(stationMap, rows, ExternalTable, UNKNOWN_SECTION);
  }

  /** A section's level counts fit within its total, and so does its count without external power. */
  predicate LevelsFit(s: SectionTally) {
    s.level1 + s.level2 + s.level3 <= s.total && s.totalNoExt <= s.total
  }

  /** The sub-buckets of table 2, or of table 3. */
  predicate Allowed(b: Bucket, selfDiagnosis: bool) {
    if selfDiagnosis then SelfDiagnosisBucket(b) else ExternalBucket(b)
  }

  /** Every entry after the first is a sub-bucket of its table. */
  predicate BucketsFit(bd: Breakdown, selfDiagnosis: bool) {
    forall i :: 1 <= i < |bd| ==> Allowed(bd[i].0, selfDiagnosis)
  }

  /**
   * A breakdown as the loop builds it: "total" first, then sub-buckets of
   * its own table, each once, and "total" equal to the sum of the others.
   */
  predicate WellFormed(bd: Breakdown, selfDiagnosis: bool) {
    && Distinct(bd)
    && |bd| > 0 && bd[0].0 == Total
    && BucketsFit(bd, selfDiagnosis)
    && 2 * Get<Bucket, nat>(bd, Total, 0) == SumBy<Bucket, nat>(bd, Id)
  }

  function TotalOf(s: SectionTally): int {
    s.total
  }

  function BreakdownTotal(bd: Breakdown): int {
    Get<Bucket, nat>(bd, Total, 0)
  }

  /** What holds of the tables after any number of rows. */
  ghost predicate Consistent(t: Tallies) {
    && Distinct(t.table1) && Distinct(t.table2) && Distinct(t.table3) && Distinct(t.workshops)
    && (forall i :: 0 <= i < |t.table1| ==> LevelsFit(t.table1[i].1))
    && (forall i :: 0 <= i < |t.table2| ==> WellFormed(t.table2[i].1, true))
    && (forall i :: 0 <= i < |t.table3| ==> WellFormed(t.table3[i].1, false))
    && SumBy(t.table1, TotalOf) == SumBy<string, nat>(t.workshops, Id)
    && SumBy(t.table1, TotalOf) == SumBy(t.table2, BreakdownTotal) + SumBy(t.table3, BreakdownTotal)
    && SumBy(t.table1, TotalOf) <= t.totalAlarms
  }

  /** The value `Get` finds for a present key is one of the entries. */
  lemma {:induction false} GetMember<K, V>(d: Dict<K, V>, k: K, other: V)
    requires k in Keys(d)
    ensures (k, Get(d, k, other)) in d
  {
    if d[0].0 != k {
      GetMember(d[1..], k, other);
    }
  }

  /** Every entry after `d[k] = v` is an old entry or the new one. */
  lemma PutMembers<K, V>(d: Dict<K, V>, k: K, v: V)
    requires Distinct(d)
    ensures forall i :: 0 <= i < |Put(d, k, v)| ==> Put(d, k, v)[i] == (k, v) || Put(d, k, v)[i] in d
  {
    var r := Put(d, k, v);
    if k in Keys(d) {
      PutInPlace(d, k, v);
      forall i | 0 <= i < |r| ensures r[i] == (k, v) || r[i] in d {
        if d[i].0 != k {
          assert r[i] == d[i];
        } else {
          PutSameKey(d, k, v, i);
        }
      }
    }
  }

  lemma {:induction false} PutSameKey<K, V>(d: Dict<K, V>, k: K, v: V, i: nat)
    requires Distinct(d) && i < |d| && d[i].0 == k
    ensures i < |Put(d, k, v)| && Put(d, k, v)[i] == (k, v)
  {
    if d[0].0 != k {
      PutSameKey(d[1..], k, v, i - 1);
    } else if i > 0 {
      KeysAt(d[1..]);
      assert false;
    }
  }

  lemma LevelsFitStep(s: SectionTally, row: AlarmRow)
    requires LevelsFit(s)
    ensures LevelsFit(CountRow(s, row))
  {
  }

  lemma Table1Step(stationMap: StationMap, t: Tallies, row: AlarmRow)
    requires Distinct(t.table1) && forall i :: 0 <= i < |t.table1| ==> LevelsFit(t.table1[i].1)
    ensures var t1 := Step(stationMap, t, row).table1;
      Distinct(t1) && forall i :: 0 <= i < |t1| ==> LevelsFit(t1[i].1)
  {
    var section := SectionOf(stationMap, row);
    if section != UNKNOWN_SECTION {
      var old1 := Get(t.table1, section, ZERO_TALLY);
      if section in Keys(t.table1) {
        GetMember(t.table1, section, ZERO_TALLY);
        var i :| 0 <= i < |t.table1| && t.table1[i] == (section, old1);
      } else {
        GetAbsent(t.table1, section, ZERO_TALLY);
      }
      LevelsFitStep(old1, row);
      PutMembers(t.table1, section, CountRow(old1, row));
    }
  }

  /** A `+=` on "total" or on a sub-bucket keeps "total" first and only sub-buckets after it. */
  lemma AddKeepsBuckets(bd: Breakdown, k: Bucket, cnt: nat, selfDiagnosis: bool)
    requires |bd| > 0 && bd[0].0 == Total && BucketsFit(bd, selfDiagnosis)
    requires k == Total || Allowed(k, selfDiagnosis)
    ensures var r := Add(bd, k, cnt); |r| > 0 && r[0].0 == Total && BucketsFit(r, selfDiagnosis)
  {
    var r := Add(bd, k, cnt);
    assert Total in Keys(bd) by { KeysAt(bd); }
    if k in Keys(bd) {
      PutInPlace<Bucket, nat>(bd, k, Get<Bucket, nat>(bd, k, 0) + cnt);
      forall i | 1 <= i < |r| ensures Allowed(r[i].0, selfDiagnosis) {
        assert r[i].0 == bd[i].0;
      }
    } else {
      assert r == bd + [(k, Get<Bucket, nat>(bd, k, 0) + cnt)];
    }
  }

  lemma CountInWellFormed(bd: Breakdown, b: Bucket, cnt: nat, selfDiagnosis: bool)
    requires bd == [] || WellFormed(bd, selfDiagnosis)
    requires Allowed(b, selfDiagnosis)
    ensures WellFormed(CountIn(bd, b, cnt), selfDiagnosis)
  {
    var bd1 := Add(bd, Total, cnt);
    AddSum(bd, Total, cnt);
    AddSum(bd1, b, cnt);
    ReadCountIn(bd, b, cnt, Total);
    if bd == [] {
      assert bd1 == [(Total, cnt)];
    } else {
      AddKeepsBuckets(bd, Total, cnt, selfDiagnosis);
    }
    AddKeepsBuckets(bd1, b, cnt, selfDiagnosis);
  }

  lemma StepTable2(stationMap: StationMap, t: Tallies, row: AlarmRow)
    ensures Step(stationMap, t, row).table2 ==
            if Kept(stationMap, row) && IsSelfDiagnosis(row)
            then Put(t.table2, SectionOf(stationMap, row),
                     CountIn(Get(t.table2, SectionOf(stationMap, row), []), SelfDiagnosisBucketOf(row), row.cnt))
            else t.table2
  {
  }

  /** What one row does to table 3. */
  lemma StepTable3(stationMap: StationMap, t: Tallies, row: AlarmRow)
    ensures Step(stationMap, t, row).table3 ==
            if Kept(stationMap, row) && !IsSelfDiagnosis(row)
            then Put(t.table3, SectionOf(stationMap, row),
                     CountIn(Get(t.table3, SectionOf(stationMap, row), []), ExternalBucketOf(row), row.cnt))
            else t.table3
  {
  }

  /** A breakdown table stays well-formed when a section's breakdown gets one more count. */
  lemma CountInTable<K>(d: Dict<K, Breakdown>, k: K, b: Bucket, cnt: nat, selfDiagnosis: bool)
    requires Distinct(d) && forall i :: 0 <= i < |d| ==> WellFormed(d[i].1, selfDiagnosis)
    requires if selfDiagnosis then SelfDiagnosisBucket(b) else ExternalBucket(b)
    ensures var d' := Put(d, k, CountIn(Get(d, k, []), b, cnt));
      Distinct(d') && forall i :: 0 <= i < |d'| ==> WellFormed(d'[i].1, selfDiagnosis)
  {
    var bd := Get(d, k, []);
    if k in Keys(d) {
      GetMember(d, k, []);
      var i :| 0 <= i < |d| && d[i] == (k, bd);
    } else {
      GetAbsent(d, k, []);
    }
    CountInWellFormed(bd, b, cnt, selfDiagnosis);
    PutMembers(d, k, CountIn(bd, b, cnt));
  }

  lemma Table2Step(stationMap: StationMap, t: Tallies, row: AlarmRow)
    requires Distinct(t.table2) && forall i :: 0 <= i < |t.table2| ==> WellFormed(t.table2[i].1, true)
    ensures var t2 := Step(stationMap, t, row).table2;
      Distinct(t2) && forall i :: 0 <= i < |t2| ==> WellFormed(t2[i].1, true)
  {
    StepTable2(stationMap, t, row);
    CountInTable(t.table2, SectionOf(stationMap, row), SelfDiagnosisBucketOf(row), row.cnt, true);
  }

  lemma Table3Step(stationMap: StationMap, t: Tallies, row: AlarmRow)
    requires Distinct(t.table3) && forall i :: 0 <= i < |t.table3| ==> WellFormed(t.table3[i].1, false)
    ensures var t3 := Step(stationMap, t, row).table3;
      Distinct(t3) && forall i :: 0 <= i < |t3| ==> WellFormed(t3[i].1, false)
  {
    StepTable3(stationMap, t, row);
    CountInTable(t.table3, SectionOf(stationMap, row), ExternalBucketOf(row), row.cnt, false);
  }

  /** Writing `v` under `k` changes a sum over the values by `f(v)` less the old value's share. */
  lemma SumPut<K, V>(d: Dict<K, V>, k: K, v: V, default: V, f: V -> int)
    requires k !in Keys(d) ==> f(default) == 0
    ensures SumBy(Put(d, k, v), f) == SumBy(d, f) + f(v) - f(Get(d, k, default))
  {
    SumByPut(d, k, v, f);
    if k in Keys(d) {
      GetPresent(d, k, v, default);
    } else {
      GetAbsent(d, k, default);
    }
  }

  lemma SumsStep(stationMap: StationMap, t: Tallies, row: AlarmRow)
    ensures var t' := Step(stationMap, t, row);
      && SumBy(t'.table1, TotalOf) == SumBy(t.table1, TotalOf) + (if Kept(stationMap, row) then row.cnt else 0)
      && SumBy<string, nat>(t'.workshops, Id) == SumBy<string, nat>(t.workshops, Id) + (if Kept(stationMap, row) then row.cnt else 0)
      && SumBy(t'.table2, BreakdownTotal) + SumBy(t'.table3, BreakdownTotal) ==
         SumBy(t.table2, BreakdownTotal) + SumBy(t.table3, BreakdownTotal) + (if Kept(stationMap, row) then row.cnt else 0)
  {
    var section := SectionOf(stationMap, row);
    if section != UNKNOWN_SECTION {
      SumPut(t.table1, section, CountRow(Get(t.table1, section, ZERO_TALLY), row), ZERO_TALLY, TotalOf);
      AddSum(t.workshops, WorkshopKey(stationMap, row), row.cnt);
      if IsSelfDiagnosis(row) {
        var bd := Get(t.table2, section, []);
        ReadCountIn(bd, SelfDiagnosisBucketOf(row), row.cnt, Total);
        SumPut(t.table2, section, CountIn(bd, SelfDiagnosisBucketOf(row), row.cnt), [], BreakdownTotal);
      } else {
        var bd := Get(t.table3, section, []);
        ReadCountIn(bd, ExternalBucketOf(row), row.cnt, Total);
        SumPut(t.table3, section, CountIn(bd, ExternalBucketOf(row), row.cnt), [], BreakdownTotal);
      }
    }
  }

  /** One row keeps the tables consistent. */
  lemma ConsistentStep(stationMap: StationMap, t: Tallies, row: AlarmRow)
    requires Consistent(t)
    ensures Consistent(Step(stationMap, t, row))
  {
    Table1Step(stationMap, t, row);
    Table2Step(stationMap, t, row);
    Table3Step(stationMap, t, row);
    SumsStep(stationMap, t, row);
    var section := SectionOf(stationMap, row);
    if section != UNKNOWN_SECTION {
      var key := WorkshopKey(stationMap, row);
      assert Distinct(Step(stationMap, t, row).workshops);
    }
  }

  /**
   * After any rows: no table lists a key twice, every section's levels fit
   * its total, every breakdown's total is the sum of its sub-buckets, and
   * the section totals, the workshop counts and the table 2 plus table 3
   * totals all add up to the same figure: the alarm count of the rows whose
   * station has a known section, at most the grand total.
   */
  lemma {:induction false} TallyConsistent(stationMap: StationMap, rows: seq<AlarmRow>)
    ensures Consistent(TallyOf(stationMap, rows))
    ensures SumBy(TallyOf(stationMap, rows).table1, TotalOf) == SumHits(stationMap, rows, KnownSection)
  {
    if |rows| > 0 {
      TallyConsistent(stationMap, rows[..|rows| - 1]);
      ConsistentStep(stationMap, TallyOf(stationMap, rows[..|rows| - 1]), rows[|rows| - 1]);
    }
    TallyCounts(stationMap, rows, KnownSection);
  }

  /** No counter exceeds the grand total: every row that hits a counter is also counted in `total_alarms`. */
  lemma {:induction false} CounterAtMostGrand(stationMap: StationMap, rows: seq<AlarmRow>, c: Counter)
    ensures SumHits(stationMap, rows, c) <= SumHits(stationMap, rows, Grand)
  {
    if |rows| > 0 {
      CounterAtMostGrand(stationMap, rows[..|rows| - 1], c);
    }
  }

  /**
   * The sub-buckets of a section's table 2 entry share out its "total":
   * every monitoring row lands in exactly one of them.
   */
  lemma {:induction false} SelfDiagnosisBucketsAddUp(stationMap: StationMap, rows: seq<AlarmRow>, s: string)
    ensures SumHits(stationMap, rows, SelfDiagnosis(s, Total)) ==
            SumHits(stationMap, rows, SelfDiagnosis(s, SelfAlarm)) + SumHits(stationMap, rows, SelfDiagnosis(s, ElecChar)) +
            SumHits(stationMap, rows, SelfDiagnosis(s, SwitchNoRep)) + SumHits(stationMap, rows, SelfDiagnosis(s, Other))
  {
    if |rows| > 0 {
      SelfDiagnosisBucketsAddUp(stationMap, rows[..|rows| - 1], s);
      SelfDiagnosisRowAddsUp(stationMap, rows[|rows| - 1], s);
    }
  }

  /** One row's share of the table 2 "total" goes to exactly one sub-bucket. */
  lemma SelfDiagnosisRowAddsUp(stationMap: StationMap, row: AlarmRow, s: string)
    ensures HitCount(stationMap, row, SelfDiagnosis(s, Total)) ==
            HitCount(stationMap, row, SelfDiagnosis(s, SelfAlarm)) + HitCount(stationMap, row, SelfDiagnosis(s, ElecChar)) +
            HitCount(stationMap, row, SelfDiagnosis(s, SwitchNoRep)) + HitCount(stationMap, row, SelfDiagnosis(s, Other))
  {
  }

  /**
   * The sub-buckets of a section's table 3 entry share out its "total":
   * every external-interface row lands in exactly one of them.
   */
  lemma {:induction false} ExternalBucketsAddUp(stationMap: StationMap, rows: seq<AlarmRow>, s: string)
    ensures SumHits(stationMap, rows, ExternalInterface(s, Total)) ==
            SumHits(stationMap, rows, ExternalInterface(s, Power)) + SumHits(stationMap, rows, ExternalInterface(s, Zpw2000)) +
            SumHits(stationMap, rows, ExternalInterface(s, Atp)) + SumHits(stationMap, rows, ExternalInterface(s, Interlock)) +
            SumHits(stationMap, rows, ExternalInterface(s, Gap)) + SumHits(stationMap, rows, ExternalInterface(s, Other))
  {
    if |rows| > 0 {
      ExternalBucketsAddUp(stationMap, rows[..|rows| - 1], s);
      ExternalRowAddsUp(stationMap, rows[|rows| - 1], s);
    }
  }

  /** One row's share of the table 3 "total" goes to exactly one sub-bucket. */
  lemma ExternalRowAddsUp(stationMap: StationMap, row: AlarmRow, s: string)
    ensures HitCount(stationMap, row, ExternalInterface(s, Total)) ==
            HitCount(stationMap, row, ExternalInterface(s, Power)) + HitCount(stationMap, row, ExternalInterface(s, Zpw2000)) +
            HitCount(stationMap, row, ExternalInterface(s, Atp)) + HitCount(stationMap, row, ExternalInterface(s, Interlock)) +
            HitCount(stationMap, row, ExternalInterface(s, Gap)) + HitCount(stationMap, row, ExternalInterface(s, Other))
  {
    var b := ExternalBucketOf(row);
  }

  /** Every row of a section is either a monitoring row or an external-interface row, never both. */
  lemma {:induction false} SectionSumSplit(stationMap: StationMap, rows: seq<AlarmRow>, s: string)
    ensures SumHits(stationMap, rows, SectionTotal(s)) ==
            SumHits(stationMap, rows, SelfDiagnosis(s, Total)) + SumHits(stationMap, rows, ExternalInterface(s, Total))
  {
    if |rows| > 0 {
      SectionSumSplit(stationMap, rows[..|rows| - 1], s);
    }
  }

  /** A section's table 1 total is its table 2 total plus its table 3 total. */
  lemma SectionSplit(stationMap: StationMap, rows: seq<AlarmRow>, s: string)
    ensures Read(TallyOf(stationMap, rows), SectionTotal(s)) ==
            Read(TallyOf(stationMap, rows), SelfDiagnosis(s, Total)) +
            Read(TallyOf(stationMap, rows), ExternalInterface(s, Total))
  {
    TallyCounts(stationMap, rows, SectionTotal(s));
    TallyCounts(stationMap, rows, SelfDiagnosis(s, Total));
    TallyCounts(stationMap, rows, ExternalInterface(s, Total));
    SectionSumSplit(stationMap, rows, s);
  }

  /** The grand total counts every row, whether or not its station has a known section. */
  lemma GrandTotal(stationMap: StationMap, rows: seq<AlarmRow>)
    ensures TallyOf(stationMap, rows).totalAlarms == SumHits(stationMap, rows, Grand)
    ensures SumHits(stationMap, rows, Grand) == SumHits(map[], rows, Grand)
  {
    TallyCounts(stationMap, rows, Grand);
    SumHitsGrand(stationMap, rows);
  }

  lemma {:induction false} SumHitsGrand(stationMap: StationMap, rows: seq<AlarmRow>)
    ensures SumHits(stationMap, rows, Grand) == SumHits(map[], rows, Grand)
  {
    if |rows| > 0 {
      SumHitsGrand(stationMap, rows[..|rows| - 1]);
    }
  }

  /** One line of table 1; station and turnout counts are always 0. */
  datatype SectionRow = SectionRow(name: string, stationCount: nat, turnoutCount: nat, tally: SectionTally)

  /** One line of table 2 or table 3. */
  datatype BreakdownRow = BreakdownRow(name: string, count: nat, breakdown: Breakdown)

  /** One line of the workshop ranking. */
  datatype RankRow = RankRow(name: string, count: nat)

  /** One line of the top-issues list, as the second query returns it. */
  datatype IssueRow = IssueRow(issue: Option<string>, count: nat)

  datatype StatsReport = StatsReport(
    period: string,
    total: nat,
    table1: seq<SectionRow>,
    table2: seq<BreakdownRow>,
    table3: seq<BreakdownRow>,
    table4: seq<RankRow>,
    topIssues: seq<IssueRow>,
    trendStatus: string,
    trendGrowth: string)

  /** Table 1 output: one line per section, in first-seen order. */
  method FormatSections(table1: Dict<string, SectionTally>) returns (out: seq<SectionRow>)
    ensures |out| == |table1|
    ensures forall i :: 0 <= i < |out| ==>
              out[i].name == table1[i].0 && out[i].tally == table1[i].1 &&
              out[i].stationCount == 0 && out[i].turnoutCount == 0
  {
    out := [];
    var i := 0;
    while i < |table1|
      invariant 0 <= i <= |table1| && |out| == i
      invariant forall j :: 0 <= j < i ==>
                  out[j].name == table1[j].0 && out[j].tally == table1[j].1 &&
                  out[j].stationCount == 0 && out[j].turnoutCount == 0
    {
      var (section, data) := table1[i];
      out := out + [SectionRow(section, 0, 0, data)];
      i := i + 1;
    }
  }

  /** Table 2 and table 3 output: one line per section, its count read from its breakdown's "total". */
  method FormatBreakdowns(table: Dict<string, Breakdown>) returns (out: seq<BreakdownRow>)
    ensures |out| == |table|
    ensures forall i :: 0 <= i < |out| ==>
              out[i].name == table[i].0 && out[i].breakdown == table[i].1 &&
              out[i].count == Get<Bucket, nat>(table[i].1, Total, 0)
  {
    out := [];
    var i := 0;
    while i < |table|
      invariant 0 <= i <= |table| && |out| == i
      invariant forall j :: 0 <= j < i ==>
                  out[j].name == table[j].0 && out[j].breakdown == table[j].1 &&
                  out[j].count == Get<Bucket, nat>(table[j].1, Total, 0)
    {
      var (section, data) := table[i];
      out := out + [BreakdownRow(section, Get<Bucket, nat>(data, Total, 0), data)];
      i := i + 1;
    }
  }

  /** Table 4: the five workshops with the most alarms, most first. */
  function RankWorkshops(workshops: Dict<string, nat>): (r: seq<RankRow>)
    ensures |r| == if |workshops| < 5 then |workshops| else 5
    ensures forall i :: 0 <= i < |r| ==> r[i] == RankRow(Top(workshops, 5)[i].0, Top(workshops, 5)[i].1)
    ensures forall i, j :: 0 <= i < j < |r| ==> r[i].count >= r[j].count
  {
    var top := Top(workshops, 5);
    seq(|top|, i requires 0 <= i < |top| => RankRow(top[i].0, top[i].1))
  }

  /**
   * A table 1 line as `get_stats` reports a section: station and turnout
   * counts of 0, and each figure the alarm count of the section's rows that
   * the rules send to it.
   */
  predicate ReportsSection(stationMap: StationMap, rows: seq<AlarmRow>, line: SectionRow) {
    && line.name != UNKNOWN_SECTION
    && line.stationCount == 0 && line.turnoutCount == 0
    && line.tally.total == SumHits(stationMap, rows, SectionTotal(line.name))
    && line.tally.level1 == SumHits(stationMap, rows, SectionLevel(line.name, 1))
    && line.tally.level2 == SumHits(stationMap, rows, SectionLevel(line.name, 2))
    && line.tally.level3 == SumHits(stationMap, rows, SectionLevel(line.name, 3))
    && line.tally.totalNoExt == SumHits(stationMap, rows, SectionNoExternal(line.name))
    && LevelsFit(line.tally)
  }

  /** The counter of a table 2 (`selfDiagnosis`) or table 3 bucket. */
  function BucketCounter(s: string, b: Bucket, selfDiagnosis: bool): Counter {
    if selfDiagnosis then SelfDiagnosis(s, b) else ExternalInterface(s, b)
  }

  /** Table 2 (`selfDiagnosis`) or table 3. */
  function BreakdownTable(t: Tallies, selfDiagnosis: bool): Dict<string, Breakdown> {
    if selfDiagnosis then t.table2 else t.table3
  }

  /**
   * A table 2 or table 3 line as `get_stats` reports a section: its count is
   * the breakdown's "total", the breakdown is well formed, and every bucket,
   * present or not, reads as the alarm count of the section's rows that the
   * chain sends to it.
   */
  predicate ReportsBreakdown(stationMap: StationMap, rows: seq<AlarmRow>, line: BreakdownRow, selfDiagnosis: bool) {
    && line.name != UNKNOWN_SECTION
    && line.count == Get<Bucket, nat>(line.breakdown, Total, 0)
    && WellFormed(line.breakdown, selfDiagnosis)
    && forall b :: Get<Bucket, nat>(line.breakdown, b, 0) == SumHits(stationMap, rows, BucketCounter(line.name, b, selfDiagnosis))
  }

  /**
   * `get_stats` after the query: the row loop and the output. Dates are
   * passed as text for the period line only; `topFaults` is the result of
   * the top-ten query, passed through. Tables 1 to 3 list the tally's
   * sections in the order the loop first met them (so `TableKeys` says
   * which sections appear), each line with the figures of its section.
   */
  method GetStats(stationMap: StationMap, startDate: string, endDate: string,
                  rows: seq<AlarmRow>, topFaults: seq<IssueRow>) returns (report: StatsReport)
    ensures report.period == startDate + " 至 " + endDate
    ensures report.total == SumHits(stationMap, rows, Grand)
    ensures |report.table1| == |TallyOf(stationMap, rows).table1|
    ensures |report.table2| == |TallyOf(stationMap, rows).table2|
    ensures |report.table3| == |TallyOf(stationMap, rows).table3|
    ensures forall i :: 0 <= i < |report.table1| ==>
              report.table1[i].name == TallyOf(stationMap, rows).table1[i].0 &&
              ReportsSection(stationMap, rows, report.table1[i])
    ensures forall i :: 0 <= i < |report.table2| ==>
              report.table2[i].name == TallyOf(stationMap, rows).table2[i].0 &&
              ReportsBreakdown(stationMap, rows, report.table2[i], true)
    ensures forall i :: 0 <= i < |report.table3| ==>
              report.table3[i].name == TallyOf(stationMap, rows).table3[i].0 &&
              ReportsBreakdown(stationMap, rows, report.table3[i], false)
    ensures forall i, j :: 0 <= i < j < |report.table1| ==> report.table1[i].name != report.table1[j].name
    ensures forall i, j :: 0 <= i < j < |report.table2| ==> report.table2[i].name != report.table2[j].name
    ensures forall i, j :: 0 <= i < j < |report.table3| ==> report.table3[i].name != report.table3[j].name
    ensures report.table4 == RankWorkshops(TallyOf(stationMap, rows).workshops)
    ensures report.topIssues == topFaults
    ensures report.trendStatus == "未知" && report.trendGrowth == "0%"
  {
    var t := TallyRows(stationMap, rows);
    GrandTotal(stationMap, rows);
    var table1Output := FormatSections(t.table1);
    var table2Output := FormatBreakdowns(t.table2);
    var table3Output := FormatBreakdowns(t.table3);
    var table4Output := RankWorkshops(t.workshops);
    report := StatsReport(startDate + " 至 " + endDate, t.totalAlarms, table1Output, table2Output, table3Output,
                          table4Output, topFaults, "未知", "0%");
    SectionLines(stationMap, rows, table1Output);
    BreakdownLines(stationMap, rows, true, table2Output);
    BreakdownLines(stationMap, rows, false, table3Output);
  }

  /** What `TallyConsistent` and `NoUnknownSection` say of table 1 after all rows. */
  lemma Table1Facts(stationMap: StationMap, rows: seq<AlarmRow>)
    ensures var table1 := TallyOf(stationMap, rows).table1;
      Distinct(table1) && UNKNOWN_SECTION !in Keys(table1) &&
      forall i :: 0 <= i < |table1| ==> LevelsFit(table1[i].1)
  {
    TallyConsistent(stationMap, rows);
    NoUnknownSection(stationMap, rows);
  }

  /** What `TallyConsistent` and `NoUnknownSection` say of table 2 (`selfDiagnosis`) or table 3 after all rows. */
  lemma BreakdownFacts(stationMap: StationMap, rows: seq<AlarmRow>, selfDiagnosis: bool)
    ensures var table := BreakdownTable(TallyOf(stationMap, rows), selfDiagnosis);
      Distinct(table) && UNKNOWN_SECTION !in Keys(table) &&
      forall i :: 0 <= i < |table| ==> WellFormed(table[i].1, selfDiagnosis)
  {
    TallyConsistent(stationMap, rows);
    NoUnknownSection(stationMap, rows);
  }

  /** Line `i` of the tally's table 1 reports its section. */
  lemma SectionLine(stationMap: StationMap, rows: seq<AlarmRow>, i: nat)
    requires i < |TallyOf(stationMap, rows).table1|
    ensures var line := TallyOf(stationMap, rows).table1[i];
      ReportsSection(stationMap, rows, SectionRow(line.0, 0, 0, line.1))
  {
    var table1 := TallyOf(stationMap, rows).table1;
    Table1Facts(stationMap, rows);
    KeysAt(table1);
    GetAt(table1, i, ZERO_TALLY);
    var s := table1[i].0;
    TallyCounts(stationMap, rows, SectionTotal(s));
    TallyCounts(stationMap, rows, SectionLevel(s, 1));
    TallyCounts(stationMap, rows, SectionLevel(s, 2));
    TallyCounts(stationMap, rows, SectionLevel(s, 3));
    TallyCounts(stationMap, rows, SectionNoExternal(s));
    ReadSection(TallyOf(stationMap, rows), s);
  }

  lemma ReadSection(t: Tallies, s: string)
    ensures var x := Get(t.table1, s, ZERO_TALLY);
      && Read(t, SectionTotal(s)) == x.total
      && Read(t, SectionLevel(s, 1)) == x.level1
      && Read(t, SectionLevel(s, 2)) == x.level2
      && Read(t, SectionLevel(s, 3)) == x.level3
      && Read(t, SectionNoExternal(s)) == x.totalNoExt
  {
  }

  /** Line `i` of the tally's table 2 (`selfDiagnosis`) or table 3 reports its section. */
  lemma BreakdownLine(stationMap: StationMap, rows: seq<AlarmRow>, selfDiagnosis: bool, i: nat)
    requires i < |BreakdownTable(TallyOf(stationMap, rows), selfDiagnosis)|
    ensures var line := BreakdownTable(TallyOf(stationMap, rows), selfDiagnosis)[i];
      ReportsBreakdown(stationMap, rows, BreakdownRow(line.0, Get<Bucket, nat>(line.1, Total, 0), line.1), selfDiagnosis)
  {
    var t := TallyOf(stationMap, rows);
    var table := BreakdownTable(t, selfDiagnosis);
    BreakdownFacts(stationMap, rows, selfDiagnosis);
    KeysAt(table);
    GetAt(table, i, []);
    var s := table[i].0;
    var bd := table[i].1;
    forall b ensures Get<Bucket, nat>(bd, b, 0) == SumHits(stationMap, rows, BucketCounter(s, b, selfDiagnosis)) {
      TallyCounts(stationMap, rows, BucketCounter(s, b, selfDiagnosis));
      ReadBucket(t, s, b, selfDiagnosis);
    }
  }

  lemma ReadBucket(t: Tallies, s: string, b: Bucket, selfDiagnosis: bool)
    ensures Read(t, BucketCounter(s, b, selfDiagnosis)) == Get<Bucket, nat>(Get(BreakdownTable(t, selfDiagnosis), s, []), b, 0)
  {
  }

  /** The table 1 output reports every section of the tally, each once. */
  lemma SectionLines(stationMap: StationMap, rows: seq<AlarmRow>, out: seq<SectionRow>)
    requires var table1 := TallyOf(stationMap, rows).table1;
      |out| == |table1| &&
      forall i :: 0 <= i < |out| ==>
        out[i].name == table1[i].0 && out[i].tally == table1[i].1 && out[i].stationCount == 0 && out[i].turnoutCount == 0
    ensures forall i :: 0 <= i < |out| ==> ReportsSection(stationMap, rows, out[i])
    ensures forall i, j :: 0 <= i < j < |out| ==> out[i].name != out[j].name
  {
    var table1 := TallyOf(stationMap, rows).table1;
    forall i | 0 <= i < |out| ensures ReportsSection(stationMap, rows, out[i]) {
      SectionLine(stationMap, rows, i);
    }
    Table1Facts(stationMap, rows);
    forall i, j | 0 <= i < j < |out| ensures out[i].name != out[j].name {
      DistinctAt(table1, i, j);
    }
  }

  /** The table 2 (`selfDiagnosis`) or table 3 output reports every section of the tally, each once. */
  lemma BreakdownLines(stationMap: StationMap, rows: seq<AlarmRow>, selfDiagnosis: bool, out: seq<BreakdownRow>)
    requires var table := BreakdownTable(TallyOf(stationMap, rows), selfDiagnosis);
      |out| == |table| &&
      forall i :: 0 <= i < |out| ==>
        out[i].name == table[i].0 && out[i].breakdown == table[i].1 &&
        out[i].count == Get<Bucket, nat>(table[i].1, Total, 0)
    ensures forall i :: 0 <= i < |out| ==> ReportsBreakdown(stationMap, rows, out[i], selfDiagnosis)
    ensures forall i, j :: 0 <= i < j < |out| ==> out[i].name != out[j].name
  {
    var table := BreakdownTable(TallyOf(stationMap, rows), selfDiagnosis);
    forall i | 0 <= i < |out| ensures ReportsBreakdown(stationMap, rows, out[i], selfDiagnosis) {
      BreakdownLine(stationMap, rows, selfDiagnosis, i);
      assert out[i] == BreakdownRow(table[i].0, Get<Bucket, nat>(table[i].1, Total, 0), table[i].1);
    }
    BreakdownFacts(stationMap, rows, selfDiagnosis);
    forall i, j | 0 <= i < j < |out| ensures out[i].name != out[j].name {
      DistinctAt(table, i, j);
    }
  }

  /** Entries of a dictionary without repeated keys have different keys. */
  lemma {:induction false} DistinctAt<K, V>(d: Dict<K, V>, i: nat, j: nat)
    requires Distinct(d) && i < j < |d|
    ensures d[i].0 != d[j].0
  {
    if i == 0 {
      KeysAt(d[1..]);
      assert d[j] == d[1..][j - 1];
    } else {
      DistinctAt(d[1..], i - 1, j - 1);
    }
  }
}
