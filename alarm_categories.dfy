/**
 * The alarm configuration file as both taxonomy loaders see it, and the
 * category rule they share: an `<Alarm>` element's name decides whether its
 * sub-alarms are switch-no-indication, electrical-characteristic or
 * intelligent-analysis alarms.
 */
module AlarmCategories {
  import opened Wrappers
  import opened Text

  /** One `<SubAlarm>` element; its `filename` attribute may be absent. */
  datatype SubAlarmElement = SubAlarmElement(filename: Option<string>)

  /** One `<Alarm>` element: its `name` and `type` attributes and its `<SubAlarm>` children. */
  datatype AlarmElement = AlarmElement(
    name: Option<string>,
    typeCode: Option<string>,
    subAlarms: seq<SubAlarmElement>)

  datatype Category = SwitchNoRep | ElecChar | SmartDiag {

    /** The label written into the category map. */
    function Label(): (r: string)
      ensures r == "switch_no_rep" || r == "elec_char" || r == "smart_diag"
      ensures SwitchNoRep? <==> r == "switch_no_rep"
      ensures ElecChar? <==> r == "elec_char"
      ensures SmartDiag? <==> r == "smart_diag"
    {
      match this
      case SwitchNoRep => "switch_no_rep"
      case ElecChar => "elec_char"
      case SmartDiag => "smart_diag"
    }
  }

  const SWITCH_NO_REP_NAME := "道岔无表示报警"
  const ELEC_CHAR_MARK := "电气特性超限"
  const SMART_DIAG_MARK := "智能分析"

  /** An attribute that Python treats as true: present and not empty. */
  predicate Truthy(attr: Option<string>) {
    attr.Some? && attr.value != ""
  }

  /**
   * The category of an alarm name, first match wins: the exact
   * switch-no-indication name, else a name holding the electrical-
   * characteristic marker, else one holding the intelligent-analysis marker.
   */
  function CategoryOf(name: string): (r: Option<Category>)
    ensures r == Some(SwitchNoRep) <==> name == SWITCH_NO_REP_NAME
    ensures r == Some(ElecChar) <==> name != SWITCH_NO_REP_NAME && Contains(name, ELEC_CHAR_MARK)
    ensures r == Some(SmartDiag) <==>
              name != SWITCH_NO_REP_NAME && !Contains(name, ELEC_CHAR_MARK) && Contains(name, SMART_DIAG_MARK)
    ensures r == None <==>
              name != SWITCH_NO_REP_NAME && !Contains(name, ELEC_CHAR_MARK) && !Contains(name, SMART_DIAG_MARK)
  {
    if name == SWITCH_NO_REP_NAME then Some(SwitchNoRep)
    else if Contains(name, ELEC_CHAR_MARK) then Some(ElecChar)
    else if Contains(name, SMART_DIAG_MARK) then Some(SmartDiag)
    else None
  }
}
