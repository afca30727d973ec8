/**
 The diagnosis system (simple_fault_system.py, class
 `SimpleFaultDiagnosisSystem`). The object holds the three knowledge-base
 lists; its loop methods are proved against the stage functions of the other
 modules, and `Diagnose` chains the five stages into one report.
 */
module Diagnosis {
  import opened Text
  import opened Entities
  import opened Classification
  import opened Severity
  import opened Knowledge
  import opened Recommendations

  /** The report `diagnose` returns; the timestamp is supplied by the caller. */
  datatype Report = Report(
    inputText: string,
    extractedEntities: EntityBundle,
    textClassification: TextType,
    sentimentAnalysis: Rating,
    matchedRecords: seq<Record>,
    riskLevel: RiskLevel,
    recommendations: seq<string>,
    timestamp: string)

  /** The report as a function of the note, its tagged tokens, the three lists and the time stamp. */
  function DiagnoseReport(text: string, tokens: seq<Token>, inspection: seq<Record>,
                          hazard: seq<Record>, maintenance: seq<Record>, timestamp: string): Report
  {
    var entities := Extract(tokens);
    var textType := Classify(text);
    var knowledge := Query(inspection, hazard, maintenance, entities.deviceNames, textType.Label());
    Report(text, entities, textType, AnalyzeSentiment(text), knowledge.matchedRecords,
           knowledge.riskLevel, Recommend(entities.faultLocations, knowledge.matchedRecords), timestamp)
  }

  /**
   End to end: the risk is high only for a hazard note with a top-tier matched
   record; a record is matched exactly when it is in the list the note's type
   selects and mentions an extracted device name in that list's name field;
   the recommendations are duplicate-free, and a string is recommended exactly
   when it is a prefixed measure of a matched record or the canned advice of
   an extracted fault location.
   */
  lemma ReportAgreesWithStages(text: string, tokens: seq<Token>, inspection: seq<Record>,
                               hazard: seq<Record>, maintenance: seq<Record>, timestamp: string,
                               r: Record, s: string)
    ensures var rep := DiagnoseReport(text, tokens, inspection, hazard, maintenance, timestamp);
      var names := Extract(tokens).deviceNames;
      && (rep.riskLevel == High <==>
            Classify(text) == Hazard && exists m :: m in rep.matchedRecords && IsTopDanger(m))
      && (r in rep.matchedRecords <==>
            match Classify(text)
            case Inspection => r in inspection && MentionsDevice(r, DeviceNameField, names)
            case Hazard => r in hazard && MentionsDevice(r, DeviceNameField, names)
            case Maintenance => r in maintenance && MentionsDevice(r, RepairEquipmentField, names))
      && NoDuplicates(rep.recommendations)
      && (s in rep.recommendations <==>
            (exists m :: m in rep.matchedRecords &&
              ((ProcessMeasureField in m && s == ActionPrefix + m[ProcessMeasureField]) ||
               (GuardMeasureField in m && s == GuardPrefix + m[GuardMeasureField])))
            || (exists loc :: loc in Extract(tokens).faultLocations && LocationAdvice(loc) == Some(s)))
  {
    var rep := DiagnoseReport(text, tokens, inspection, hazard, maintenance, timestamp);
    var e := Extract(tokens);
    QueryReadsSelectedList(inspection, hazard, maintenance, e.deviceNames, Classify(text).Label(), r);
    RecommendMembers(e.faultLocations, rep.matchedRecords, s);
  }

  /** Apart from the time stamp the report depends only on the note, its tokens and the lists. */
  lemma ReportIgnoresTimestamp(text: string, tokens: seq<Token>, inspection: seq<Record>,
                               hazard: seq<Record>, maintenance: seq<Record>, t1: string, t2: string)
    ensures DiagnoseReport(text, tokens, inspection, hazard, maintenance, t1).(timestamp := t2)
         == DiagnoseReport(text, tokens, inspection, hazard, maintenance, t2)
  {
  }

  /**
   A note with no keyword and tokens meeting no rule still yields a full
   report: empty buckets, a hazard classification (all scores zero), a normal
   rating, no matched records, low risk and no recommendations.
   */
  lemma EmptyNoteReport(text: string, tokens: seq<Token>, inspection: seq<Record>,
                        hazard: seq<Record>, maintenance: seq<Record>, timestamp: string)
    requires forall t :: t in tokens ==>
      !IsDeviceName(t) && !IsFaultLocation(t) && !IsTimeInfo(t) && !IsTechnicalTerm(t)
    requires forall k :: k in InspectionKeywords + HazardKeywords + MaintenanceKeywords ==> !Contains(text, k)
    requires forall k :: k in SevereKeywords + ModerateKeywords + MildKeywords ==> !Contains(text, k)
    ensures DiagnoseReport(text, tokens, inspection, hazard, maintenance, timestamp)
         == Report(text, EntityBundle([], [], [], [], []), Hazard, Normal, [], Low, [], timestamp)
  {
    NoRuleMetGivesEmptyBundle(tokens);
    QueryWithoutNames(inspection, hazard, maintenance, HazardLabel);
    assert RecordsAdvice([]) + LocationsAdvice([]) == [];
  }

  /** The diagnosis system: three knowledge-base lists that callers load by assignment. */
  class FaultDiagnosisSystem {
    var inspectionData: seq<Record>
    var hazardData: seq<Record>
    var maintenanceData: seq<Record>

    /** A system starts with empty lists. */
    constructor ()
      ensures inspectionData == [] && hazardData == [] && maintenanceData == []
    {
      inspectionData := [];
      hazardData := [];
      maintenanceData := [];
    }

    /** `extract_entities`: one pass over the tagged tokens, appending to every bucket whose rule holds. */
    method ExtractEntities(tokens: seq<Token>) returns (e: EntityBundle)
      ensures e == Extract(tokens)
    {
      var devices, locations, times, terms := [], [], [], [];
      for i := 0 to |tokens|
        invariant devices == Select(tokens[..i], IsDeviceName)
        invariant locations == Select(tokens[..i], IsFaultLocation)
        invariant times == Select(tokens[..i], IsTimeInfo)
        invariant terms == Select(tokens[..i], IsTechnicalTerm)
      {
        var t := tokens[i];
        assert tokens[..i + 1][..i] == tokens[..i];
        if IsNounTag(t.flag) && ContainsAny(t.word, DeviceKeywords) && |t.word| > 2 {
          devices := devices + [t.word];
        }
        if IsNounTag(t.flag) && ContainsAny(t.word, LocationKeywords) {
          locations := locations + [t.word];
        }
        if t.flag == "t" || MatchesTimePattern(t.word) {
          times := times + [t.word];
        }
        if IsNounTag(t.flag) && ContainsAny(t.word, TermKeywords) {
          terms := terms + [t.word];
        }
      }
      assert tokens[..|tokens|] == tokens;
      e := EntityBundle(devices, locations, [], times, terms);
    }

    /** One scan of `query_knowledge_base`: the records mentioning an extracted name, in list order. */
    method ScanRecords(records: seq<Record>, field: string, names: seq<string>)
      returns (matched: seq<Record>)
      ensures matched == Matching(records, field, names)
    {
      matched := [];
      for i := 0 to |records|
        invariant matched == Matching(records[..i], field, names)
      {
        assert records[..i + 1][..i] == records[..i];
        if MentionsDevice(records[i], field, names) {
          matched := matched + [records[i]];
        }
      }
      assert records[..|records|] == records;
    }

    /**
     The hazard scan of `query_knowledge_base`: as `ScanRecords`, and a matched
     record of a top danger level sets the risk to high, which is never lowered again.
     */
    method ScanHazards(records: seq<Record>, names: seq<string>)
      returns (matched: seq<Record>, risk: RiskLevel)
      ensures matched == Matching(records, DeviceNameField, names)
      ensures risk == HazardRisk(matched)
    {
      matched, risk := [], Low;
      for i := 0 to |records|
        invariant matched == Matching(records[..i], DeviceNameField, names)
        invariant risk == HazardRisk(matched)
      {
        assert records[..i + 1][..i] == records[..i];
        if MentionsDevice(records[i], DeviceNameField, names) {
          matched := matched + [records[i]];
          if IsTopDanger(records[i]) {
            risk := High;
          }
        }
      }
      assert records[..|records|] == records;
    }

    /**
     `query_knowledge_base`: the type string selects the list to scan; an
     unrecognised type scans nothing.
     */
    method QueryKnowledgeBase(entities: EntityBundle, textType: string) returns (q: QueryResult)
      ensures q == Query(inspectionData, hazardData, maintenanceData, entities.deviceNames, textType)
    {
      var names := entities.deviceNames;
      q := QueryResult([], Low);
      if textType == InspectionLabel {
        var matched := ScanRecords(inspectionData, DeviceNameField, names);
        q := q.(matchedRecords := matched);
      } else if textType == HazardLabel {
        var matched, risk := ScanHazards(hazardData, names);
        q := QueryResult(matched, risk);
      } else if textType == MaintenanceLabel {
        var matched := ScanRecords(maintenanceData, RepairEquipmentField, names);
        q := q.(matchedRecords := matched);
      }
    }

    /** The first loop of `generate_recommendations`: the measures of each matched record. */
    method CollectRecordAdvice(records: seq<Record>) returns (advice: seq<string>)
      ensures advice == RecordsAdvice(records)
    {
      advice := [];
      for i := 0 to |records|
        invariant advice == RecordsAdvice(records[..i])
      {
        var r := records[i];
        assert records[..i + 1][..i] == records[..i];
        if ProcessMeasureField in r {
          advice := advice + [ActionPrefix + r[ProcessMeasureField]];
        }
        if GuardMeasureField in r {
          advice := advice + [GuardPrefix + r[GuardMeasureField]];
        }
      }
      assert records[..|records|] == records;
    }

    /**
     The second loop of `generate_recommendations`: the first location keyword,
     in table order, that a fault location contains picks its canned advice.
     */
    method CollectLocationAdvice(locations: seq<string>) returns (advice: seq<string>)
      ensures advice == LocationsAdvice(locations)
    {
      advice := [];
      for i := 0 to |locations|
        invariant advice == LocationsAdvice(locations[..i])
      {
        var loc := locations[i];
        assert locations[..i + 1][..i] == locations[..i];
        if Contains(loc, "轴承") {
          advice := advice + [BearingAdvice];
        } else if Contains(loc, "润滑系统") {
          advice := advice + [LubricationAdvice];
        } else if Contains(loc, "轧辊") {
          advice := advice + [RollAdvice];
        } else if Contains(loc, "保持架") {
          advice := advice + [CageAdvice];
        }
      }
      assert locations[..|locations|] == locations;
    }

    /**
     `generate_recommendations`: record measures, then location advice,
     deduplicated.
     */
    method GenerateRecommendations(entities: EntityBundle, knowledge: QueryResult)
      returns (recs: seq<string>)
      ensures recs == Recommend(entities.faultLocations, knowledge.matchedRecords)
    {
      var fromRecords := CollectRecordAdvice(knowledge.matchedRecords);
      var fromLocations := CollectLocationAdvice(entities.faultLocations);
      recs := Dedup(fromRecords + fromLocations);
    }

    /**
     `diagnose`: the five stages on one note. It reads the three lists and
     changes nothing.
     */
    method Diagnose(userInput: string, tokens: seq<Token>, timestamp: string) returns (report: Report)
      ensures report == DiagnoseReport(userInput, tokens, inspectionData, hazardData, maintenanceData, timestamp)
    {
      var entities := ExtractEntities(tokens);
      var textType := Classify(userInput);
      var sentiment := AnalyzeSentiment(userInput);
      var knowledge := QueryKnowledgeBase(entities, textType.Label());
      var recommendations := GenerateRecommendations(entities, knowledge);
      report := Report(userInput, entities, textType, sentiment, knowledge.matchedRecords,
                       knowledge.riskLevel, recommendations, timestamp);
    }
  }
}
