/**
 * The station directory: built from the `<Sta>` elements of the station XML
 * file, keyed by telegraph code, and read by the statistics service and the
 * offline report.
 */
module Stations {
  import opened Wrappers
  import opened Text

  /** The attributes of one `<Sta>` element; an absent attribute is None. */
  datatype StaElement = StaElement(
    telename: Option<string>,
    name: Option<string>,
    workshop: Option<string>,
    eleSection: Option<string>)

  /**
   * One value of the station map. The loader always writes all three keys;
   * the readers look each one up with a default, so a hand-edited map may
   * lack any of them.
   */
  datatype StationInfo = StationInfo(
    name: Option<string>,
    workshop: Option<string>,
    eleSection: Option<string>)

  type StationMap = map<string, StationInfo>

  /** The stripped telegraph code of an element, "" when absent. */
  function CodeOf(sta: StaElement): string {
    Strip(sta.telename.GetOr(""))
  }

  /** The stripped name, workshop and section of an element, "" when absent. */
  function InfoOf(sta: StaElement): (r: StationInfo)
    ensures Complete(r)
  {
    StationInfo(
      Some(Strip(sta.name.GetOr(""))),
      Some(Strip(sta.workshop.GetOr(""))),
      Some(Strip(sta.eleSection.GetOr(""))))
  }

  /** Has all three keys. */
  predicate Complete(info: StationInfo) {
    info.name.Some? && info.workshop.Some? && info.eleSection.Some?
  }

  /** No element in `stas[i+1..n]` carries the code of `stas[i]`. */
  predicate LastWithCode(stas: seq<StaElement>, i: nat, n: nat)
    requires i < n <= |stas|
  {
    forall l :: i < l < n ==> CodeOf(stas[l]) != CodeOf(stas[i])
  }

  /** The keys are the non-empty stripped codes of the first `n` elements. */
  ghost predicate KeysFrom(stas: seq<StaElement>, n: nat, stationMap: StationMap)
    requires n <= |stas|
  {
    forall code :: code in stationMap <==>
      code != "" && exists i :: 0 <= i < n && CodeOf(stas[i]) == code
  }

  /** Each code maps to the stripped attributes of the last of the first `n` elements with it. */
  ghost predicate LatestFrom(stas: seq<StaElement>, n: nat, stationMap: StationMap)
    requires n <= |stas|
  {
    forall i :: 0 <= i < n && CodeOf(stas[i]) != "" && LastWithCode(stas, i, n) ==>
      CodeOf(stas[i]) in stationMap && stationMap[CodeOf(stas[i])] == InfoOf(stas[i])
  }

  /**
   * What the `station_map` loop has built after the first `n` elements: one
   * entry per non-empty stripped code among them, holding the stripped
   * attributes of the last element with that code (all three keys present),
   * so at most `n` entries.
   */
  ghost predicate BuiltFrom(stas: seq<StaElement>, n: nat, stationMap: StationMap)
    requires n <= |stas|
  {
    && KeysFrom(stas, n, stationMap)
    && LatestFrom(stas, n, stationMap)
    && (forall code :: code in stationMap ==> Complete(stationMap[code]))
    && |stationMap| <= n
  }

  lemma KeysStep(stas: seq<StaElement>, n: nat, before: StationMap, after: StationMap)
    requires n < |stas| && KeysFrom(stas, n, before)
    requires after == if CodeOf(stas[n]) != "" then before[CodeOf(stas[n]) := InfoOf(stas[n])] else before
    ensures KeysFrom(stas, n + 1, after)
  {
    forall c
      ensures c in after <==> c != "" && exists i :: 0 <= i < n + 1 && CodeOf(stas[i]) == c
    {
      if c != "" && exists i :: 0 <= i < n + 1 && CodeOf(stas[i]) == c {
        var i :| 0 <= i < n + 1 && CodeOf(stas[i]) == c;
        if i < n {
          assert c in before;
        }
      }
    }
  }

  lemma LatestStep(stas: seq<StaElement>, n: nat, before: StationMap, after: StationMap)
    requires n < |stas| && LatestFrom(stas, n, before)
    requires after == if CodeOf(stas[n]) != "" then before[CodeOf(stas[n]) := InfoOf(stas[n])] else before
    ensures LatestFrom(stas, n + 1, after)
  {
    forall i | 0 <= i < n + 1 && CodeOf(stas[i]) != "" && LastWithCode(stas, i, n + 1)
      ensures CodeOf(stas[i]) in after && after[CodeOf(stas[i])] == InfoOf(stas[i])
    {
      if i < n {
        assert CodeOf(stas[i]) != CodeOf(stas[n]);
        assert LastWithCode(stas, i, n);
      }
    }
  }

  lemma SizeStep(before: StationMap, code: string, info: StationInfo)
    ensures |before[code := info]| <= |before| + 1
  {
    if code in before {
      assert before[code := info].Keys == before.Keys;
    } else {
      assert before[code := info].Keys == before.Keys + {code};
    }
  }

  lemma CompleteStep(before: StationMap, code: string, info: StationInfo, after: StationMap)
    requires forall c :: c in before ==> Complete(before[c])
    requires Complete(info)
    requires after == before || after == before[code := info]
    ensures forall c :: c in after ==> Complete(after[c])
  {
  }

  /** One more element: its entry is written (when its code is non-empty) over any earlier one. */
  lemma BuildStep(stas: seq<StaElement>, n: nat, before: StationMap, after: StationMap)
    requires n < |stas| && BuiltFrom(stas, n, before)
    requires after == if CodeOf(stas[n]) != "" then before[CodeOf(stas[n]) := InfoOf(stas[n])] else before
    ensures BuiltFrom(stas, n + 1, after)
  {
    KeysStep(stas, n, before, after);
    LatestStep(stas, n, before, after);
    SizeStep(before, CodeOf(stas[n]), InfoOf(stas[n]));
    CompleteStep(before, CodeOf(stas[n]), InfoOf(stas[n]), after);
  }

  /** The `station_map` loop. */
  method BuildStationMap(stas: seq<StaElement>) returns (stationMap: StationMap)
    ensures BuiltFrom(stas, |stas|, stationMap)
  {
    stationMap := map[];
    var i := 0;
    while i < |stas|
      invariant 0 <= i <= |stas|
      invariant BuiltFrom(stas, i, stationMap)
    {
      var sta := stas[i];
      var telename := Strip(sta.telename.GetOr(""));
      var name := Strip(sta.name.GetOr(""));
      var workshop := Strip(sta.workshop.GetOr(""));
      var eleSection := Strip(sta.eleSection.GetOr(""));
      ghost var before := stationMap;
      if telename != "" {
        stationMap := stationMap[telename := StationInfo(Some(name), Some(workshop), Some(eleSection))];
      }
      BuildStep(stas, i, before, stationMap);
      i := i + 1;
    }
  }
}
