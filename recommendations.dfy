/**
 Recommendation synthesis (simple_fault_system.py, `generate_recommendations`).
 Advice comes from two sources: the measure fields of the matched records,
 and a first-match table over the extracted fault locations. The combined
 list is then deduplicated; its order is not part of the contract.
 */
module Recommendations {
  import opened Text
  import opened Knowledge

  datatype Option<T> = None | Some(value: T)

  const ProcessMeasureField: string := "process_measure"
  const GuardMeasureField: string := "guard_measure"
  const ActionPrefix: string := "建议采取措施: "
  const GuardPrefix: string := "监护措施: "

  const BearingAdvice: string := "建议检查轴承润滑情况，监测振动和温度变化"
  const LubricationAdvice: string := "建议检查润滑油位和油质，清洁过滤器"
  const RollAdvice: string := "建议检查轧辊磨损情况，必要时进行更换"
  const CageAdvice: string := "建议检查保持架的状态，检测对应的情况"

  /** The advice one matched record contributes: its process measure, then its guard measure. */
  function RecordAdvice(r: Record): seq<string> {
    (if ProcessMeasureField in r then [ActionPrefix + r[ProcessMeasureField]] else [])
    + (if GuardMeasureField in r then [GuardPrefix + r[GuardMeasureField]] else [])
  }

  /** The advice of all matched records, in record order. */
  function RecordsAdvice(records: seq<Record>): seq<string> {
    if records == [] then []
    else RecordsAdvice(records[..|records| - 1]) + RecordAdvice(records[|records| - 1])
  }

  /**
   The canned advice for one fault location: the first of 轴承, 润滑系统, 轧辊,
   保持架 that occurs in it decides; a location containing none gets nothing.
   */
  function LocationAdvice(location: string): (a: Option<string>)
    ensures a.Some? <==> Contains(location, "轴承") || Contains(location, "润滑系统")
                         || Contains(location, "轧辊") || Contains(location, "保持架")
    ensures Contains(location, "轴承") ==> a == Some(BearingAdvice)
    ensures a == Some(LubricationAdvice) <==>
      !Contains(location, "轴承") && Contains(location, "润滑系统")
    ensures a == Some(RollAdvice) <==>
      !Contains(location, "轴承") && !Contains(location, "润滑系统") && Contains(location, "轧辊")
    ensures a == Some(CageAdvice) <==>
      !Contains(location, "轴承") && !Contains(location, "润滑系统") && !Contains(location, "轧辊")
      && Contains(location, "保持架")
  {
    if Contains(location, "轴承") then Some(BearingAdvice)
    else if Contains(location, "润滑系统") then Some(LubricationAdvice)
    else if Contains(location, "轧辊") then Some(RollAdvice)
    else if Contains(location, "保持架") then Some(CageAdvice)
    else None
  }

  /** The canned advice of all fault locations, in location order (one entry per matching location). */
  function LocationsAdvice(locations: seq<string>): seq<string> {
    if locations == [] then []
    else
      var last := locations[|locations| - 1];
      LocationsAdvice(locations[..|locations| - 1])
        + (match LocationAdvice(last) case Some(a) => [a] case None => [])
  }

  /** `list(set(recommendations))`: the deduplicated advice of both sources. */
  function Recommend(locations: seq<string>, matched: seq<Record>): (r: seq<string>)
    ensures NoDuplicates(r)
    ensures forall s :: s in r <==> s in RecordsAdvice(matched) || s in LocationsAdvice(locations)
  {
    Dedup(RecordsAdvice(matched) + LocationsAdvice(locations))
  }

  /** Record advice is exactly the prefixed measure fields of the matched records. */
  lemma {:induction false} RecordsAdviceMembers(records: seq<Record>, s: string)
    ensures s in RecordsAdvice(records) <==>
      exists r :: r in records &&
        ((ProcessMeasureField in r && s == ActionPrefix + r[ProcessMeasureField]) ||
         (GuardMeasureField in r && s == GuardPrefix + r[GuardMeasureField]))
  {
    if records != [] {
      var init := records[..|records| - 1];
      RecordsAdviceMembers(init, s);
      assert records == init + [records[|records| - 1]];
    }
  }

  /** Location advice is exactly the canned advice of some extracted location. */
  lemma {:induction false} LocationsAdviceMembers(locations: seq<string>, s: string)
    ensures s in LocationsAdvice(locations) <==>
      exists loc :: loc in locations && LocationAdvice(loc) == Some(s)
  {
    if locations != [] {
      var init := locations[..|locations| - 1];
      LocationsAdviceMembers(init, s);
      assert locations == init + [locations[|locations| - 1]];
    }
  }

  /** Every piece of location advice is one of the four canned strings. */
  lemma {:induction false} LocationsAdviceIsCanned(locations: seq<string>)
    ensures forall s :: s in LocationsAdvice(locations) ==>
      s in [BearingAdvice, LubricationAdvice, RollAdvice, CageAdvice]
  {
    if locations != [] {
      LocationsAdviceIsCanned(locations[..|locations| - 1]);
    }
  }

  /**
   The recommendations carry no duplicates, and a string is recommended
   exactly when it is a prefixed measure of a matched record or the canned
   advice of an extracted fault location.
   */
  lemma RecommendMembers(locations: seq<string>, matched: seq<Record>, s: string)
    ensures NoDuplicates(Recommend(locations, matched))
    ensures s in Recommend(locations, matched) <==>
      (exists r :: r in matched &&
        ((ProcessMeasureField in r && s == ActionPrefix + r[ProcessMeasureField]) ||
         (GuardMeasureField in r && s == GuardPrefix + r[GuardMeasureField])))
      || (exists loc :: loc in locations && LocationAdvice(loc) == Some(s))
  {
    RecordsAdviceMembers(matched, s);
    LocationsAdviceMembers(locations, s);
  }

  /**
   Several bearing locations yield one bearing recommendation: without
   matched records the recommendations are the distinct canned strings.
   */
  lemma TwoBearingsOneAdvice()
    ensures Recommend(["轴承外圈", "轴承内圈"], []) == [BearingAdvice]
  {
    ContainsAt("轴承外圈", "轴承", 0);
    ContainsAt("轴承内圈", "轴承", 0);
    assert ["轴承外圈", "轴承内圈"][..1] == ["轴承外圈"];
    assert LocationsAdvice(["轴承外圈", "轴承内圈"]) == [BearingAdvice, BearingAdvice];
    assert RecordsAdvice([]) + [BearingAdvice, BearingAdvice] == [BearingAdvice, BearingAdvice];
    assert [BearingAdvice, BearingAdvice][..1] == [BearingAdvice];
    assert [BearingAdvice][..0] == [];
    assert Dedup([BearingAdvice]) == [BearingAdvice];
  }

  /**
   The sample hazard record alone yields exactly its two prefixed measures,
   in some order.
   */
  lemma SampleHazardRecordAdvice()
    ensures var recs := Recommend([], [SampleHazardRecord]);
      && |recs| == 2
      && forall s :: s in recs <==> s in {"建议采取措施: 水泵拆检，清理杂物", "监护措施: 系统隔离"}
  {
    var rec: Record := SampleHazardRecord;
    var advice := [ActionPrefix + "水泵拆检，清理杂物", GuardPrefix + "系统隔离"];
    assert RecordAdvice(rec) == advice;
    assert [rec][..0] == [];
    assert RecordsAdvice([rec]) + LocationsAdvice([]) == advice;
    assert advice[..1][..0] == [];
    assert Dedup(advice[..1]) == advice[..1];
    assert advice[0] != advice[1] by { assert advice[0][0] != advice[1][0]; }
    assert Dedup(advice) == advice[..1] + [advice[1]];
    assert Recommend([], [rec]) == advice;
    SampleHazardAdviceText();
  }

  /** Spelled out, those two recommendations read as follows. */
  lemma SampleHazardAdviceText()
    ensures [ActionPrefix + "水泵拆检，清理杂物", GuardPrefix + "系统隔离"]
         == ["建议采取措施: 水泵拆检，清理杂物", "监护措施: 系统隔离"]
  {
    assert ActionPrefix + "水泵拆检，清理杂物" == "建议采取措施: 水泵拆检，清理杂物";
    assert GuardPrefix + "系统隔离" == "监护措施: 系统隔离";
  }
}
