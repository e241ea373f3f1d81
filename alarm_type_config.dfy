/**
 * The hexadecimal-type taxonomy loader: it walks the `<Alarm>` elements of
 * the alarm configuration and fills two global tables, the set of
 * self-diagnostic alarm types (alarms without sub-alarms) and the map from
 * alarm type to category.
 */
module AlarmTypeConfig {
  import opened Wrappers
  import opened Numerals
  import opened AlarmCategories

  /** The two tables as values. */
  datatype TypeTables = TypeTables(typeMap: map<int, Category>, selfDiagTypes: set<int>)

  /** The type an alarm is filed under: None when its name or type is missing or empty, or the type is not hex. */
  function TypeOf(alarm: AlarmElement): (r: Option<int>)
    ensures r.Some? <==> Truthy(alarm.name) && Truthy(alarm.typeCode) && ParseHex(alarm.typeCode.value).Some?
    ensures r.Some? ==> r == ParseHex(alarm.typeCode.value)
  {
    if !Truthy(alarm.name) || !Truthy(alarm.typeCode) then None
    else
      match ParseHex(alarm.typeCode.value)
      case None => None
      case Some(v) => Some(v)
  }

  /** What an alarm adds to the self-diagnostic set: its type, when it has one and no sub-alarms. */
  function SelfDiagType(alarm: AlarmElement): Option<int> {
    if TypeOf(alarm).Some? && |alarm.subAlarms| == 0 then TypeOf(alarm) else None
  }

  /** What an alarm writes into the type map: its type and category, when it has both and has sub-alarms. */
  function MapWrite(alarm: AlarmElement): Option<(int, Category)> {
    if TypeOf(alarm).Some? && |alarm.subAlarms| > 0 && CategoryOf(alarm.name.value).Some? then
      Some((TypeOf(alarm).value, CategoryOf(alarm.name.value).value))
    else None
  }

  /** One pass of the loop body. */
  function ApplyAlarm(t: TypeTables, alarm: AlarmElement): (r: TypeTables)
    ensures r.selfDiagTypes ==
              t.selfDiagTypes + (if SelfDiagType(alarm).Some? then {SelfDiagType(alarm).value} else {})
    ensures r.typeMap ==
              if MapWrite(alarm).Some? then t.typeMap[MapWrite(alarm).value.0 := MapWrite(alarm).value.1]
              else t.typeMap
  {
    match TypeOf(alarm)
    case None => t
    case Some(v) =>
      if |alarm.subAlarms| == 0 then t.(selfDiagTypes := t.selfDiagTypes + {v})
      else
        match CategoryOf(alarm.name.value)
        case None => t
        case Some(c) => t.(typeMap := t.typeMap[v := c])
  }

  /** The loop over all alarms, in document order. */
  function ApplyAll(t: TypeTables, alarms: seq<AlarmElement>): TypeTables {
    if |alarms| == 0 then t
    else ApplyAlarm(ApplyAll(t, alarms[..|alarms| - 1]), alarms[|alarms| - 1])
  }

  /**
   * A type is self-diagnostic after loading exactly when it was before, or
   * some alarm with a name, a hex type and no sub-alarms carries it.
   */
  lemma {:induction false} SelfDiagTypesOf(t: TypeTables, alarms: seq<AlarmElement>, v: int)
    ensures v in ApplyAll(t, alarms).selfDiagTypes <==>
              v in t.selfDiagTypes || exists i :: 0 <= i < |alarms| && SelfDiagType(alarms[i]) == Some(v)
  {
    if |alarms| > 0 {
      var init := alarms[..|alarms| - 1];
      SelfDiagTypesOf(t, init, v);
      assert forall i :: 0 <= i < |init| ==> init[i] == alarms[i];
    }
  }

  /**
   * A type is in the map after loading exactly when it was before, or some
   * categorised alarm with sub-alarms carries it.
   */
  lemma {:induction false} TypeMapKeys(t: TypeTables, alarms: seq<AlarmElement>, v: int)
    ensures v in ApplyAll(t, alarms).typeMap <==>
              v in t.typeMap ||
              exists i :: 0 <= i < |alarms| && MapWrite(alarms[i]).Some? && MapWrite(alarms[i]).value.0 == v
  {
    if |alarms| > 0 {
      var init := alarms[..|alarms| - 1];
      TypeMapKeys(t, init, v);
      assert forall i :: 0 <= i < |init| ==> init[i] == alarms[i];
    }
  }

  /** No later alarm writes type `v`. */
  ghost predicate LastWriter(alarms: seq<AlarmElement>, i: nat, v: int)
    requires i < |alarms|
  {
    forall j :: i < j < |alarms| ==> MapWrite(alarms[j]).None? || MapWrite(alarms[j]).value.0 != v
  }

  /** The last alarm that writes a type decides its category. */
  lemma {:induction false} TypeMapLastWriterWins(t: TypeTables, alarms: seq<AlarmElement>, i: nat, v: int, c: Category)
    requires i < |alarms| && MapWrite(alarms[i]) == Some((v, c)) && LastWriter(alarms, i, v)
    ensures v in ApplyAll(t, alarms).typeMap && ApplyAll(t, alarms).typeMap[v] == c
  {
    var init := alarms[..|alarms| - 1];
    if i < |alarms| - 1 {
      assert init[i] == alarms[i];
      assert LastWriter(init, i, v) by {
        forall j | i < j < |init| ensures MapWrite(init[j]).None? || MapWrite(init[j]).value.0 != v {
          assert init[j] == alarms[j];
        }
      }
      TypeMapLastWriterWins(t, init, i, v, c);
    }
  }

  /** A type no alarm writes keeps its old entry, or stays absent. */
  lemma {:induction false} TypeMapUntouched(t: TypeTables, alarms: seq<AlarmElement>, v: int)
    requires forall i :: 0 <= i < |alarms| ==> MapWrite(alarms[i]).None? || MapWrite(alarms[i]).value.0 != v
    ensures v in ApplyAll(t, alarms).typeMap <==> v in t.typeMap
    ensures v in t.typeMap ==> ApplyAll(t, alarms).typeMap[v] == t.typeMap[v]
  {
    if |alarms| > 0 {
      var init := alarms[..|alarms| - 1];
      assert forall i :: 0 <= i < |init| ==> init[i] == alarms[i];
      TypeMapUntouched(t, init, v);
    }
  }

  /** The module's two global tables and `load_alarm_config`. */
  class TypeConfig {
    var typeMap: map<int, Category>
    var selfDiagTypes: set<int>

    constructor ()
      ensures typeMap == map[] && selfDiagTypes == {}
    {
      typeMap := map[];
      selfDiagTypes := {};
    }

    /**
     * Loads the parsed configuration; None stands for a missing or
     * unparsable file, which leaves both tables as they were.
     */
    method Load(config: Option<seq<AlarmElement>>)
      modifies this
      ensures config.None? ==> typeMap == old(typeMap) && selfDiagTypes == old(selfDiagTypes)
      ensures config.Some? ==>
                TypeTables(typeMap, selfDiagTypes) ==
                ApplyAll(TypeTables(old(typeMap), old(selfDiagTypes)), config.value)
    {
      if config.None? {
        return;
      }
      var alarms := config.value;
      var i := 0;
      while i < |alarms|
        invariant 0 <= i <= |alarms|
        invariant TypeTables(typeMap, selfDiagTypes) ==
                  ApplyAll(TypeTables(old(typeMap), old(selfDiagTypes)), alarms[..i])
      {
        assert alarms[..i + 1][..i] == alarms[..i];
        var alarm := alarms[i];
        var name := alarm.name;
        var typeHex := alarm.typeCode;
        if !Truthy(name) || !Truthy(typeHex) {
          i := i + 1;
          continue;
        }
        var parsed := ParseHex(typeHex.value);
        if parsed.None? {
          i := i + 1;
          continue;
        }
        var typeVal := parsed.value;
        if |alarm.subAlarms| == 0 {
          selfDiagTypes := selfDiagTypes + {typeVal};
        } else {
          var category := CategoryOf(name.value);
          if category.Some? {
            typeMap := typeMap[typeVal := category.value];
          }
        }
        i := i + 1;
      }
      assert alarms[..i] == alarms;
    }
  }

  /** With no configuration file both tables stay empty. */
  method LoadMissingFile() returns (config: TypeConfig)
    ensures config.typeMap == map[] && config.selfDiagTypes == {}
  {
    config := new TypeConfig();
    config.Load(None);
  }
}
