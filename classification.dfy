/**
 Text-type classification (simple_fault_system.py, `classify_text_type`).
 Each of three five-entry keyword tables is scored by the number of its
 entries that occur in the note; the hazard type wins every tie, and
 maintenance wins a tie against inspection.
 */
module Classification {
  import opened Text

  /** The three note types; `Label` is the string the source returns. */
  datatype TextType = Inspection | Hazard | Maintenance {
    function Label(): (s: string)
      ensures s == InspectionLabel <==> this == Inspection
      ensures s == HazardLabel <==> this == Hazard
      ensures s == MaintenanceLabel <==> this == Maintenance
    {
      match this
      case Inspection => InspectionLabel
      case Hazard => HazardLabel
      case Maintenance => MaintenanceLabel
    }
  }

  const InspectionLabel: string := "点检"
  const HazardLabel: string := "隐患"
  const MaintenanceLabel: string := "维修"

  const InspectionKeywords: seq<string> := ["点检", "检查", "巡检", "监测", "状态"]
  const HazardKeywords: seq<string> := ["隐患", "异常", "故障", "报警", "问题"]
  const MaintenanceKeywords: seq<string> := ["维修", "检修", "保养", "更换", "修复"]

  function Max(a: nat, b: nat): nat {
    if a >= b then a else b
  }

  /**
   `classify_text_type`: hazard when its score reaches the larger of the other
   two, otherwise maintenance when its score reaches inspection's, otherwise
   inspection. Inspection therefore wins only by strictly beating both rivals.
   */
  function Classify(text: string): (r: TextType)
    ensures var ic, hc, mc := CountPresent(InspectionKeywords, text),
                              CountPresent(HazardKeywords, text),
                              CountPresent(MaintenanceKeywords, text);
      && (r == Hazard <==> hc >= ic && hc >= mc)
      && (r == Maintenance <==> mc > hc && mc >= ic)
      && (r == Inspection <==> ic > hc && ic > mc)
  {
    var ic := CountPresent(InspectionKeywords, text);
    var hc := CountPresent(HazardKeywords, text);
    var mc := CountPresent(MaintenanceKeywords, text);
    if hc >= Max(ic, mc) then Hazard
    else if mc >= ic then Maintenance
    else Inspection
  }

  /** None of the three tables repeats an entry. */
  lemma KeywordTablesAreDistinct()
    ensures NoDuplicates(InspectionKeywords)
    ensures NoDuplicates(HazardKeywords)
    ensures NoDuplicates(MaintenanceKeywords)
  {
  }

  /**
   Each score is the number of distinct keywords of its table present in the
   note (repeated occurrences do not add), so each lies in 0..5.
   */
  lemma ScoresCountDistinctKeywords(text: string)
    ensures CountPresent(InspectionKeywords, text) == |PresentKeywords(InspectionKeywords, text)| <= 5
    ensures CountPresent(HazardKeywords, text) == |PresentKeywords(HazardKeywords, text)| <= 5
    ensures CountPresent(MaintenanceKeywords, text) == |PresentKeywords(MaintenanceKeywords, text)| <= 5
  {
    KeywordTablesAreDistinct();
    CountPresentIsCardinality(InspectionKeywords, text);
    CountPresentIsCardinality(HazardKeywords, text);
    CountPresentIsCardinality(MaintenanceKeywords, text);
  }

  /** Three equal scores: hazard wins. */
  lemma ThreeWayTieIsHazard(text: string)
    requires CountPresent(HazardKeywords, text) == CountPresent(InspectionKeywords, text)
    requires CountPresent(HazardKeywords, text) == CountPresent(MaintenanceKeywords, text)
    ensures Classify(text) == Hazard
  {
  }

  /** Inspection and maintenance tied above hazard: maintenance wins. */
  lemma InspectionMaintenanceTieIsMaintenance(text: string)
    requires CountPresent(InspectionKeywords, text) == CountPresent(MaintenanceKeywords, text)
    requires CountPresent(MaintenanceKeywords, text) > CountPresent(HazardKeywords, text)
    ensures Classify(text) == Maintenance
  {
  }

  /**
   A note that mentions no inspection and no maintenance keyword is a hazard
   note, whether or not it mentions a hazard keyword: in particular a note
   without any keyword is classified as a hazard (0 >= max(0, 0)).
   */
  lemma SilentRivalsGiveHazard(text: string)
    requires !ContainsAny(text, InspectionKeywords)
    requires !ContainsAny(text, MaintenanceKeywords)
    ensures Classify(text) == Hazard
  {
  }

  /** The sample note about mill 430's braking force. */
  const SampleNote: string := "检修员小明在5月5日9:00发现430号轧机制动力出现异常波动"

  /** One character from each keyword absent from the sample note. */
  const AbsentChars: set<char> := {'点', '查', '巡', '监', '状', '维', '保', '更', '复'}

  /** The sample note has none of those characters. */
  lemma SampleNoteLacks()
    ensures forall i | 0 <= i < |SampleNote| :: SampleNote[i] !in AbsentChars
  {
  }

  /** A note lacking every character of `AbsentChars` has no inspection keyword. */
  lemma NoInspectionWord(text: string)
    requires forall i | 0 <= i < |text| :: text[i] !in AbsentChars
    ensures !ContainsAny(text, InspectionKeywords)
  {
    AbsentCharRulesOut(text, AbsentChars, "点检", 0);
    AbsentCharRulesOut(text, AbsentChars, "检查", 1);
    AbsentCharRulesOut(text, AbsentChars, "巡检", 0);
    AbsentCharRulesOut(text, AbsentChars, "监测", 0);
    AbsentCharRulesOut(text, AbsentChars, "状态", 0);
  }

  /** Such a note has no maintenance keyword other than 检修. */
  lemma AtMostOneMaintenanceWord(text: string)
    requires forall i | 0 <= i < |text| :: text[i] !in AbsentChars
    ensures CountPresent(MaintenanceKeywords, text) <= 1
  {
    AbsentCharRulesOut(text, AbsentChars, "维修", 0);
    AbsentCharRulesOut(text, AbsentChars, "保养", 0);
    AbsentCharRulesOut(text, AbsentChars, "更换", 0);
    AbsentCharRulesOut(text, AbsentChars, "修复", 1);
    var tail := MaintenanceKeywords[2..];
    assert tail == ["保养", "更换", "修复"];
    assert CountPresent(tail, text) == 0;
    assert MaintenanceKeywords[1..][1..] == tail;
  }

  /**
   Such a note scores inspection 0 and maintenance at most 1, so mentioning
   异常 (hazard score at least 1) makes it a hazard note.
   */
  lemma AnomalyBeatsLoneMaintenanceWord(text: string)
    requires forall i | 0 <= i < |text| :: text[i] !in AbsentChars
    requires Contains(text, "异常")
    ensures Classify(text) == Hazard
  {
    NoInspectionWord(text);
    AtMostOneMaintenanceWord(text);
    assert HazardKeywords[1] == "异常";
    assert CountPresent(HazardKeywords, text) >= 1;
  }

  /** Such a note that mentions 检修 scores exactly 1 for maintenance. */
  lemma OverhaulIsTheOnlyMaintenanceWord(text: string)
    requires forall i | 0 <= i < |text| :: text[i] !in AbsentChars
    requires Contains(text, "检修")
    ensures CountPresent(MaintenanceKeywords, text) == 1
  {
    AtMostOneMaintenanceWord(text);
    assert MaintenanceKeywords[1] == "检修";
  }

  /** One character from each hazard keyword other than 异常. */
  const OtherHazardChars: set<char> := {'隐', '故', '报', '问'}

  /** The sample note has none of those characters either. */
  lemma SampleNoteLacksOtherHazardChars()
    ensures forall i | 0 <= i < |SampleNote| :: SampleNote[i] !in OtherHazardChars
  {
  }

  /** A note lacking every character of `OtherHazardChars` has no hazard keyword after 异常. */
  lemma NoLaterHazardWord(text: string)
    requires forall i | 0 <= i < |text| :: text[i] !in OtherHazardChars
    ensures !ContainsAny(text, HazardKeywords[2..])
  {
    AbsentCharRulesOut(text, OtherHazardChars, "故障", 0);
    AbsentCharRulesOut(text, OtherHazardChars, "报警", 0);
    AbsentCharRulesOut(text, OtherHazardChars, "问题", 0);
    assert HazardKeywords[2..] == ["故障", "报警", "问题"];
  }

  /** Such a note that mentions 异常 scores exactly 1 for hazard. */
  lemma AnomalyIsTheOnlyHazardWord(text: string)
    requires forall i | 0 <= i < |text| :: text[i] !in OtherHazardChars
    requires Contains(text, "异常")
    ensures CountPresent(HazardKeywords, text) == 1
  {
    AbsentCharRulesOut(text, OtherHazardChars, "隐患", 0);
    NoLaterHazardWord(text);
    assert HazardKeywords[1..][1..] == HazardKeywords[2..];
    assert HazardKeywords[1..][0] == "异常";
  }

  /**
   The sample note scores inspection 0, hazard 1 (异常) and maintenance 1
   (检修): hazard and maintenance tie, and the tie goes to hazard.
   */
  lemma SampleNoteIsHazard()
    ensures CountPresent(InspectionKeywords, SampleNote) == 0
    ensures CountPresent(HazardKeywords, SampleNote) == 1
    ensures CountPresent(MaintenanceKeywords, SampleNote) == 1
    ensures Classify(SampleNote) == Hazard
  {
    SampleNoteLacks();
    SampleNoteLacksOtherHazardChars();
    ContainsAt(SampleNote, "异常", |SampleNote| - 4);
    ContainsAt(SampleNote, "检修", 0);
    NoInspectionWord(SampleNote);
    AnomalyIsTheOnlyHazardWord(SampleNote);
    OverhaulIsTheOnlyMaintenanceWord(SampleNote);
  }
}
