/**
 Knowledge-base query (simple_fault_system.py, `query_knowledge_base`). The
 note's type chooses one of three in-memory record lists; a record matches
 when some extracted device name occurs inside its name field, and a matched
 hazard record of danger level A类 or B类 raises the risk level to high.
 */
module Knowledge {
  import opened Text
  import opened Classification

  /** A knowledge record: a Python dict from field names to string values. */
  type Record = map<string, string>

  const DeviceNameField: string := "device_name"
  const RepairEquipmentField: string := "repair_equipment"
  const DangerLevelField: string := "danger_level"

  /** Danger levels that raise the risk level. */
  const TopDangerLevels: seq<string> := ["A类", "B类"]

  /** `record.get(key, '')`. */
  function Get(r: Record, key: string): string {
    if key in r then r[key] else ""
  }

  /** `any(device in record.get(field, '') for device in names)`. */
  predicate MentionsDevice(r: Record, field: string, names: seq<string>) {
    exists d :: d in names && Contains(Get(r, field), d)
  }

  /** `record.get('danger_level') in ['A类', 'B类']`: a missing level never qualifies. */
  predicate IsTopDanger(r: Record) {
    DangerLevelField in r && r[DangerLevelField] in TopDangerLevels
  }

  /** The risk level of a query; `Label` is the string the source stores. */
  datatype RiskLevel = Low | High {
    function Label(): (s: string)
      ensures s == "low" <==> this == Low
      ensures s == "high" <==> this == High
    {
      match this
      case Low => "low"
      case High => "high"
    }
  }

  datatype QueryResult = QueryResult(matchedRecords: seq<Record>, riskLevel: RiskLevel)

  /** The records of `records` that mention one of `names` in `field`, in list order. */
  function Matching(records: seq<Record>, field: string, names: seq<string>): (m: seq<Record>)
    ensures |m| <= |records|
    ensures forall r :: r in m ==> r in records && MentionsDevice(r, field, names)
  {
    if records == [] then []
    else
      var last := records[|records| - 1];
      Matching(records[..|records| - 1], field, names)
        + (if MentionsDevice(last, field, names) then [last] else [])
  }

  /** The risk a hazard scan ends with: high iff some matched record has a top danger level. */
  function HazardRisk(matched: seq<Record>): RiskLevel {
    if exists r :: r in matched && IsTopDanger(r) then High else Low
  }

  /**
   `query_knowledge_base` over the three lists. An unrecognised type string
   reads no list and matches nothing; only the hazard branch touches the risk level.
   */
  function Query(inspection: seq<Record>, hazard: seq<Record>, maintenance: seq<Record>,
                 names: seq<string>, textType: string): (q: QueryResult)
    ensures q.riskLevel == High <==>
      textType == HazardLabel && exists r :: r in q.matchedRecords && IsTopDanger(r)
  {
    if textType == InspectionLabel then
      QueryResult(Matching(inspection, DeviceNameField, names), Low)
    else if textType == HazardLabel then
      var m := Matching(hazard, DeviceNameField, names);
      QueryResult(m, HazardRisk(m))
    else if textType == MaintenanceLabel then
      QueryResult(Matching(maintenance, RepairEquipmentField, names), Low)
    else
      QueryResult([], Low)
  }

  /** A record is matched exactly when it is in the list and mentions an extracted name. */
  lemma {:induction false} MatchingMembers(records: seq<Record>, field: string, names: seq<string>, r: Record)
    ensures r in Matching(records, field, names) <==> r in records && MentionsDevice(r, field, names)
  {
    if records != [] {
      var init := records[..|records| - 1];
      MatchingMembers(init, field, names, r);
      assert records == init + [records[|records| - 1]];
    }
  }

  /** Matching distributes over concatenation, so it keeps the list order. */
  lemma {:induction false} MatchingAppend(a: seq<Record>, b: seq<Record>, field: string, names: seq<string>)
    ensures Matching(a + b, field, names) == Matching(a, field, names) + Matching(b, field, names)
  {
    if b != [] {
      var init := b[..|b| - 1];
      MatchingAppend(a, init, field, names);
      var last := b[|b| - 1];
      var extra := if MentionsDevice(last, field, names) then [last] else [];
      assert (a + b)[..|a + b| - 1] == a + init;
      assert (a + b)[|a + b| - 1] == last;
      assert Matching(a + b, field, names) == Matching(a + init, field, names) + extra;
      assert Matching(b, field, names) == Matching(init, field, names) + extra;
    } else {
      assert a + b == a;
    }
  }

  /** With no extracted device names nothing matches. */
  lemma {:induction false} NoNamesMatchNothing(records: seq<Record>, field: string)
    ensures Matching(records, field, []) == []
  {
    if records != [] {
      NoNamesMatchNothing(records[..|records| - 1], field);
    }
  }

  /**
   The query reads exactly the list its type selects: its matches are the
   entries of that list (with that list's name field) mentioning an extracted
   name, in list order; other lists may change without effect.
   */
  lemma QueryReadsSelectedList(inspection: seq<Record>, hazard: seq<Record>, maintenance: seq<Record>,
                               names: seq<string>, textType: string, r: Record)
    ensures var q := Query(inspection, hazard, maintenance, names, textType);
      && (textType == InspectionLabel ==>
            (r in q.matchedRecords <==> r in inspection && MentionsDevice(r, DeviceNameField, names)))
      && (textType == HazardLabel ==>
            (r in q.matchedRecords <==> r in hazard && MentionsDevice(r, DeviceNameField, names)))
      && (textType == MaintenanceLabel ==>
            (r in q.matchedRecords <==> r in maintenance && MentionsDevice(r, RepairEquipmentField, names)))
      && (textType !in [InspectionLabel, HazardLabel, MaintenanceLabel] ==> q == QueryResult([], Low))
  {
    MatchingMembers(inspection, DeviceNameField, names, r);
    MatchingMembers(hazard, DeviceNameField, names, r);
    MatchingMembers(maintenance, RepairEquipmentField, names, r);
  }

  /** Changing the lists the type does not select does not change the result. */
  lemma QueryIgnoresOtherLists(inspection: seq<Record>, hazard: seq<Record>, maintenance: seq<Record>,
                               inspection': seq<Record>, hazard': seq<Record>, maintenance': seq<Record>,
                               names: seq<string>, textType: string)
    requires textType == InspectionLabel ==> inspection' == inspection
    requires textType == HazardLabel ==> hazard' == hazard
    requires textType == MaintenanceLabel ==> maintenance' == maintenance
    ensures Query(inspection, hazard, maintenance, names, textType)
         == Query(inspection', hazard', maintenance', names, textType)
  {
  }

  /** With no extracted device names the query matches nothing and the risk stays low. */
  lemma QueryWithoutNames(inspection: seq<Record>, hazard: seq<Record>, maintenance: seq<Record>,
                          textType: string)
    ensures Query(inspection, hazard, maintenance, [], textType) == QueryResult([], Low)
  {
    NoNamesMatchNothing(inspection, DeviceNameField);
    NoNamesMatchNothing(hazard, DeviceNameField);
    NoNamesMatchNothing(maintenance, RepairEquipmentField);
  }

  /**
   The risk level never reverts: once a prefix of the hazard list has raised
   it, the scan of the whole list ends high too.
   */
  lemma RiskIsSticky(scanned: seq<Record>, rest: seq<Record>, names: seq<string>)
    requires HazardRisk(Matching(scanned, DeviceNameField, names)) == High
    ensures HazardRisk(Matching(scanned + rest, DeviceNameField, names)) == High
  {
    MatchingAppend(scanned, rest, DeviceNameField, names);
    var r :| r in Matching(scanned, DeviceNameField, names) && IsTopDanger(r);
    assert r in Matching(scanned + rest, DeviceNameField, names);
  }

  /** The sample hazard record loaded before the sample notes are diagnosed. */
  const SampleHazardRecord: Record := map[
    DeviceNameField := "2#棒-17H轧机机列-430",
    "danger_description" := "135机组#1机凝汽器坑排污泵出力不足",
    "danger_cause" := "叶轮堵塞",
    "process_measure" := "水泵拆检，清理杂物",
    "guard_measure" := "系统隔离",
    DangerLevelField := "D类"]

  /**
   The sample hazard record: the name 430 occurs inside its device field, so
   it matches, but its danger level D类 is not top-tier, so the risk stays low.
   */
  lemma SampleHazardRecordMatchesAtLowRisk()
    ensures Query([], [SampleHazardRecord], [], ["430"], HazardLabel) == QueryResult([SampleHazardRecord], Low)
  {
    var rec: Record := SampleHazardRecord;
    assert Get(rec, DeviceNameField) == "2#棒-17H轧机机列-430";
    ContainsAt(Get(rec, DeviceNameField), "430", 12);
    assert MentionsDevice(rec, DeviceNameField, ["430"]);
    assert Matching([rec], DeviceNameField, ["430"]) == [rec] by {
      assert [rec][..0] == [];
    }
    assert rec[DangerLevelField] == "D类";
    assert !IsTopDanger(rec);
    assert HazardRisk([rec]) == Low;
    assert HazardLabel != InspectionLabel;
  }
}
