/**
 * The name-based taxonomy loader: it walks the `<Alarm>` elements of the
 * alarm configuration and fills two global tables, the set of
 * self-diagnostic alarm names (alarms without sub-alarms) and the map from
 * sub-alarm file stem to category.
 */
module AlarmNameConfig {
  import opened Wrappers
  import opened Text
  import opened AlarmCategories

  /** `os.path.splitext(os.path.basename(filename))[0]` */
  function FileStem(filename: string): (r: string)
    ensures |r| <= |Basename(filename)| && r == Basename(filename)[..|r|]
  {
    SplitExt(Basename(filename)).0
  }

  /**
   * The keys one `<SubAlarm>` writes: its file stem and, when the stem holds
   * an underscore, the part after the first one. None when its filename is
   * absent or empty.
   */
  function SubAlarmKeys(sub: SubAlarmElement): set<string> {
    if !Truthy(sub.filename) then {}
    else
      var stem := FileStem(sub.filename.value);
      if '_' in stem then {stem, AfterFirst(stem, '_')} else {stem}
  }

  /** The keys a run of `<SubAlarm>` elements writes. */
  function KeysOf(subs: seq<SubAlarmElement>): set<string> {
    if |subs| == 0 then {}
    else KeysOf(subs[..|subs| - 1]) + SubAlarmKeys(subs[|subs| - 1])
  }

  /** A key is written for a run of sub-alarms exactly when one of them writes it. */
  lemma {:induction false} KeysOfSubAlarms(subs: seq<SubAlarmElement>, k: string)
    ensures k in KeysOf(subs) <==> exists i :: 0 <= i < |subs| && k in SubAlarmKeys(subs[i])
  {
    if |subs| > 0 {
      var init := subs[..|subs| - 1];
      KeysOfSubAlarms(init, k);
      assert forall i :: 0 <= i < |init| ==> init[i] == subs[i];
    }
  }

  /**
   * The stem of a named file is always written; a written key never holds a
   * path separator; a key other than the stem is what follows the stem's
   * first underscore.
   */
  lemma SubAlarmKeysShape(sub: SubAlarmElement, k: string)
    ensures Truthy(sub.filename) ==> FileStem(sub.filename.value) in SubAlarmKeys(sub)
    ensures k in SubAlarmKeys(sub) ==> forall i :: 0 <= i < |k| ==> !IsSep(k[i])
    ensures k in SubAlarmKeys(sub) && k != FileStem(sub.filename.value) ==>
              var stem := FileStem(sub.filename.value);
              |k| < |stem| && stem[|stem| - |k| - 1] == '_' && k == stem[|stem| - |k|..] &&
              forall i :: 0 <= i < |stem| - |k| - 1 ==> stem[i] != '_'
  {
    if Truthy(sub.filename) && k in SubAlarmKeys(sub) {
      var stem := FileStem(sub.filename.value);
      StemHasNoSeparator(sub.filename.value);
      if k != stem {
        AfterFirstSpec(stem, '_');
        TailHasNoSeparator(stem);
      }
    }
  }

  lemma TailHasNoSeparator(stem: string)
    requires '_' in stem && forall i :: 0 <= i < |stem| ==> !IsSep(stem[i])
    ensures forall i :: 0 <= i < |AfterFirst(stem, '_')| ==> !IsSep(AfterFirst(stem, '_')[i])
  {
    var k := AfterFirst(stem, '_');
    AfterFirstSpec(stem, '_');
    forall i | 0 <= i < |k| ensures !IsSep(k[i]) {
      assert k[i] == stem[|stem| - |k| + i];
    }
  }

  lemma StemHasNoSeparator(filename: string)
    ensures forall i :: 0 <= i < |FileStem(filename)| ==> !IsSep(FileStem(filename)[i])
  {
    var base := Basename(filename);
    var stem := FileStem(filename);
    BasenameSpec(filename);
    assert forall i :: 0 <= i < |stem| ==> stem[i] == base[i];
  }

  /** The two tables as values. */
  datatype NameTables = NameTables(categoryMap: map<string, Category>, selfDiagNames: set<string>)

  /** What an alarm adds to the self-diagnostic set: its name, when it has one and no sub-alarms. */
  function SelfDiagName(alarm: AlarmElement): Option<string> {
    if Truthy(alarm.name) && |alarm.subAlarms| == 0 then alarm.name else None
  }

  /** The keys an alarm writes into the category map, and the category it writes. */
  function Writes(alarm: AlarmElement): Option<(set<string>, Category)> {
    if Truthy(alarm.name) && |alarm.subAlarms| > 0 && CategoryOf(alarm.name.value).Some? then
      Some((KeysOf(alarm.subAlarms), CategoryOf(alarm.name.value).value))
    else None
  }

  /** `m` with every key of `keys` set to `c`. */
  function WriteAll(m: map<string, Category>, keys: set<string>, c: Category): (r: map<string, Category>)
    ensures r.Keys == m.Keys + keys
    ensures forall k :: k in keys ==> r[k] == c
    ensures forall k :: k in m && k !in keys ==> r[k] == m[k]
  {
    m + map k | k in keys :: c
  }

  /** Writing one set of keys and then another is writing both. */
  lemma WriteAllTwice(m: map<string, Category>, keys: set<string>, more: set<string>, c: Category)
    ensures WriteAll(WriteAll(m, keys, c), more, c) == WriteAll(m, keys + more, c)
  {
  }

  /** The writes for one more sub-alarm extend the writes for those before it. */
  lemma KeysOfStep(m0: map<string, Category>, subs: seq<SubAlarmElement>, j: nat, c: Category,
                   before: map<string, Category>)
    requires j < |subs| && before == WriteAll(m0, KeysOf(subs[..j]), c)
    ensures WriteAll(before, SubAlarmKeys(subs[j]), c) == WriteAll(m0, KeysOf(subs[..j + 1]), c)
  {
    assert subs[..j + 1][..j] == subs[..j];
    WriteAllTwice(m0, KeysOf(subs[..j]), SubAlarmKeys(subs[j]), c);
  }

  /** The inner loop body writes exactly the keys of its sub-alarm. */
  lemma WriteSubAlarm(before: map<string, Category>, sub: SubAlarmElement, c: Category, after: map<string, Category>)
    requires !Truthy(sub.filename) ==> after == before
    requires Truthy(sub.filename) ==>
               var stem := FileStem(sub.filename.value);
               after == if '_' in stem then before[stem := c][AfterFirst(stem, '_') := c] else before[stem := c]
    ensures after == WriteAll(before, SubAlarmKeys(sub), c)
  {
    if Truthy(sub.filename) {
      var stem := FileStem(sub.filename.value);
      if '_' in stem {
        WriteTwo(before, stem, AfterFirst(stem, '_'), c);
      } else {
        WriteOne(before, stem, c);
      }
    } else {
      assert SubAlarmKeys(sub) == {};
      assert WriteAll(before, {}, c) == before;
    }
  }

  lemma WriteOne(m: map<string, Category>, a: string, c: Category)
    ensures m[a := c] == WriteAll(m, {a}, c)
  {
  }

  lemma WriteTwo(m: map<string, Category>, a: string, b: string, c: Category)
    ensures m[a := c][b := c] == WriteAll(m, {a, b}, c)
  {
  }

  /** One pass of the outer loop body. */
  function ApplyAlarm(t: NameTables, alarm: AlarmElement): (r: NameTables)
    ensures r.selfDiagNames ==
              t.selfDiagNames + (if SelfDiagName(alarm).Some? then {SelfDiagName(alarm).value} else {})
    ensures r.categoryMap ==
              if Writes(alarm).Some? then WriteAll(t.categoryMap, Writes(alarm).value.0, Writes(alarm).value.1)
              else t.categoryMap
  {
    if !Truthy(alarm.name) then t
    else if |alarm.subAlarms| == 0 then t.(selfDiagNames := t.selfDiagNames + {alarm.name.value})
    else
      match CategoryOf(alarm.name.value)
      case None => t
      case Some(c) => t.(categoryMap := WriteAll(t.categoryMap, KeysOf(alarm.subAlarms), c))
  }

  /** The outer loop over all alarms, in document order. */
  function ApplyAll(t: NameTables, alarms: seq<AlarmElement>): NameTables {
    if |alarms| == 0 then t
    else ApplyAlarm(ApplyAll(t, alarms[..|alarms| - 1]), alarms[|alarms| - 1])
  }

  /**
   * A name is self-diagnostic after loading exactly when it was before, or
   * some named alarm without sub-alarms carries it.
   */
  lemma {:induction false} SelfDiagNamesOf(t: NameTables, alarms: seq<AlarmElement>, name: string)
    ensures name in ApplyAll(t, alarms).selfDiagNames <==>
              name in t.selfDiagNames || exists i :: 0 <= i < |alarms| && SelfDiagName(alarms[i]) == Some(name)
  {
    if |alarms| > 0 {
      var init := alarms[..|alarms| - 1];
      SelfDiagNamesOf(t, init, name);
      assert forall i :: 0 <= i < |init| ==> init[i] == alarms[i];
    }
  }

  /**
   * A key is in the category map after loading exactly when it was before,
   * or some categorised alarm with sub-alarms writes it.
   */
  lemma {:induction false} CategoryMapKeys(t: NameTables, alarms: seq<AlarmElement>, k: string)
    ensures k in ApplyAll(t, alarms).categoryMap <==>
              k in t.categoryMap ||
              exists i :: 0 <= i < |alarms| && Writes(alarms[i]).Some? && k in Writes(alarms[i]).value.0
  {
    if |alarms| > 0 {
      var init := alarms[..|alarms| - 1];
      CategoryMapKeys(t, init, k);
      assert forall i :: 0 <= i < |init| ==> init[i] == alarms[i];
    }
  }

  /** No later alarm writes key `k`. */
  ghost predicate LastWriter(alarms: seq<AlarmElement>, i: nat, k: string)
    requires i < |alarms|
  {
    forall j :: i < j < |alarms| ==> Writes(alarms[j]).None? || k !in Writes(alarms[j]).value.0
  }

  /** The last alarm that writes a key decides its category. */
  lemma {:induction false} CategoryMapLastWriterWins(t: NameTables, alarms: seq<AlarmElement>, i: nat, k: string)
    requires i < |alarms| && Writes(alarms[i]).Some? && k in Writes(alarms[i]).value.0
    requires LastWriter(alarms, i, k)
    ensures k in ApplyAll(t, alarms).categoryMap
    ensures ApplyAll(t, alarms).categoryMap[k] == Writes(alarms[i]).value.1
  {
    var init := alarms[..|alarms| - 1];
    if i < |alarms| - 1 {
      assert init[i] == alarms[i];
      assert LastWriter(init, i, k) by {
        forall j | i < j < |init| ensures Writes(init[j]).None? || k !in Writes(init[j]).value.0 {
          assert init[j] == alarms[j];
        }
      }
      CategoryMapLastWriterWins(t, init, i, k);
    }
  }

  /** The module's two global tables and `load_alarm_config`. */
  class NameConfig {
    var categoryMap: map<string, Category>
    var selfDiagNames: set<string>

    constructor ()
      ensures categoryMap == map[] && selfDiagNames == {}
    {
      categoryMap := map[];
      selfDiagNames := {};
    }

    /**
     * Loads the parsed configuration; None stands for a missing or
     * unparsable file, which leaves both tables as they were.
     */
    method Load(config: Option<seq<AlarmElement>>)
      modifies this
      ensures config.None? ==> categoryMap == old(categoryMap) && selfDiagNames == old(selfDiagNames)
      ensures config.Some? ==>
                NameTables(categoryMap, selfDiagNames) ==
                ApplyAll(NameTables(old(categoryMap), old(selfDiagNames)), config.value)
    {
      if config.None? {
        return;
      }
      var alarms := config.value;
      var i := 0;
      while i < |alarms|
        invariant 0 <= i <= |alarms|
        invariant NameTables(categoryMap, selfDiagNames) ==
                  ApplyAll(NameTables(old(categoryMap), old(selfDiagNames)), alarms[..i])
      {
        assert alarms[..i + 1][..i] == alarms[..i];
        var alarm := alarms[i];
        var name := alarm.name;
        if !Truthy(name) {
          i := i + 1;
          continue;
        }
        var subalarms := alarm.subAlarms;
        var category := CategoryOf(name.value);
        if |subalarms| == 0 {
          selfDiagNames := selfDiagNames + {name.value};
        } else if category.Some? {
          AddSubAlarms(subalarms, category.value);
        }
        i := i + 1;
      }
      assert alarms[..i] == alarms;
    }

    /** The inner loop body: writes `c` under the keys of one sub-alarm. */
    method AddSubAlarm(sub: SubAlarmElement, c: Category)
      modifies this
      ensures categoryMap == WriteAll(old(categoryMap), SubAlarmKeys(sub), c)
      ensures selfDiagNames == old(selfDiagNames)
    {
      ghost var before := categoryMap;
      var filename := sub.filename;
      if Truthy(filename) {
        var base := Basename(filename.value);
        var namePart := SplitExt(base).0;
        categoryMap := categoryMap[namePart := c];
        if '_' in namePart {
          categoryMap := categoryMap[AfterFirst(namePart, '_') := c];
        }
      }
      WriteSubAlarm(before, sub, c, categoryMap);
    }

    /** The inner loop: writes `c` under every key of every sub-alarm. */
    method AddSubAlarms(subalarms: seq<SubAlarmElement>, c: Category)
      modifies this
      ensures categoryMap == WriteAll(old(categoryMap), KeysOf(subalarms), c)
      ensures selfDiagNames == old(selfDiagNames)
    {
      var j := 0;
      while j < |subalarms|
        invariant 0 <= j <= |subalarms|
        invariant categoryMap == WriteAll(old(categoryMap), KeysOf(subalarms[..j]), c)
        invariant selfDiagNames == old(selfDiagNames)
      {
        ghost var before := categoryMap;
        AddSubAlarm(subalarms[j], c);
        KeysOfStep(old(categoryMap), subalarms, j, c, before);
        j := j + 1;
      }
      assert subalarms[..j] == subalarms;
    }
  }
}
