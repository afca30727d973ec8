# Rule-based fault diagnosis, modelled in Dafny

This project models the diagnosis pipeline of a small industrial fault-diagnosis
system. The class `SimpleFaultDiagnosisSystem` turns a technician's free-text
maintenance note into a report in five stages:

1. entity extraction sorts the tagger's (word, part-of-speech tag) pairs into
   buckets: device names, fault locations, time expressions, technical terms,
   and an always-empty fault-phenomena list;
2. text-type classification scores three five-keyword tables (点检 inspection,
   隐患 hazard, 维修 maintenance) and picks a type with a fixed tie-break;
3. severity rating checks three keyword tiers in priority order: 严重 severe,
   中等 moderate, 轻微 mild, otherwise 正常 normal;
4. the knowledge-base query scans the one record list the type selects and
   keeps the records whose name field contains an extracted device name. A
   matched hazard record of level A类 or B类 raises the risk level to high;
5. recommendation synthesis turns the matched records' measure fields and a
   first-match table over fault locations into advice strings, then removes
   duplicates.

`diagnose` chains the stages into one report.

Layout, one module per file:

- `text.dfy` (`Text`): Python's substring test, keyword-presence counting,
  duplicate removal.
- `entities.dfy` (`Entities`): the four bucket rules, the time pattern, and
  `Extract`.
- `classification.dfy` (`Classification`): `Classify`.
- `severity.dfy` (`Severity`): `AnalyzeSentiment`.
- `knowledge.dfy` (`Knowledge`): records, `Matching`, `Query`.
- `recommendations.dfy` (`Recommendations`): `LocationAdvice`, `Recommend`.
- `diagnosis.dfy` (`Diagnosis`): the report, and the class
  `FaultDiagnosisSystem`. The class holds the three record lists as `seq`
  fields. Its loop methods are proved equal to the stage functions above.

Modelling choices:

- A knowledge record is a `map<string, string>`, like the source's dicts. A
  missing field reads as `""`, as `record.get(key, '')` does. A missing
  danger level never counts as top-tier.
- The type is a datatype whose `Label()` is the source's string. The query
  takes the label string, so an unrecognised type is possible and matches
  nothing.
- Confidence is kept in integer tenths: 8, 6, 4, 2.
- The tagger's output is an input `seq<Token>`. The timestamp is an input string.
- The sample hazard record and the first sample note that `main` uses appear
  as constants (`Knowledge.SampleHazardRecord`, `Classification.SampleNote`)
  in lemmas about them.

Behaviour of the code worth noting (the model follows the code):

- classification counts the distinct keywords present
  (simple_fault_system.py:97-99), although the comment at :96 speaks of
  counting keyword occurrences;
- a note with no keywords at all is classified 隐患 (hazard), not inspection,
  because `0 >= max(0, 0)` at :102;
- 异常 is in the severe tier (:112) as well as the moderate tier (:113), so
  the sample note about mill 430 rates severe (0.8), not moderate. The
  moderate tier's 异常 entry can never decide the rating;
- the time pattern at :80 is anchored at the start only, so `9:00` is a time
  expression only when it is tagged `t`;
- a "noun" is any tag containing the letter `n` (`'n' in flag` at :72, :76
  and :84), so `vn`, `nr` and `eng` count too.

## Model

| member | source | states |
|---|---|---|
| `Text.Contains` | simple_fault_system.py:72-84 | definition of Python's `sub in s` on strings; its properties are in `Text.ContainsAt` and `Text.AbsentCharRulesOut` |
| `Text.ContainsAny` | simple_fault_system.py:72-84 | definition of `any(k in s for k in keys)`; its properties are in `Text.CountPresent`, `Severity.AnalyzeSentiment` and `Entities.ExtractedWordsMeetRules` |
| `Text.CountPresent` | simple_fault_system.py:97-99 | a keyword score is at most the table size, and is positive exactly when some keyword of the table occurs in the text |
| `Text.CountPresentIsCardinality` | simple_fault_system.py:97-99 | for a table without repeats, the score is the number of distinct keywords present |
| `Text.AbsentCharRulesOut` | simple_fault_system.py:97-99 | a keyword with a character the text never uses does not occur in the text |
| `Text.Dedup` | simple_fault_system.py:187 | deduplication leaves no duplicates, keeps exactly the same elements, and does not lengthen the list |
| `Entities.IsNounTag` | simple_fault_system.py:72-84 | definition of `'n' in flag`; its properties are in `Entities.ExtractedWordsMeetRules` and `Entities.MotorFreeEndIsDeviceAndLocation` |
| `Entities.IsDigit` | simple_fault_system.py:80 | definition of the `\d` class (ASCII and full-width digits); its properties are in `Entities.LeadingDigits` and `Entities.MatchesTimePatternIff` |
| `Entities.IsTimeUnit` | simple_fault_system.py:80 | definition of the `[月日时分]` class; its properties are in `Entities.MatchesTimePatternIff` |
| `Entities.LeadingDigits` | simple_fault_system.py:80 | the digit run that greedy `\d+` consumes is all digits and is followed by a non-digit or the end |
| `Entities.MatchesTimePattern` | simple_fault_system.py:80 | definition of `re.match(r'\d+[月日时分]', word)`; its properties are in `Entities.MatchesTimePatternIff`, `Entities.DateWordsAreTimeInfo` and `Entities.ClockTimeNeedsTag` |
| `Entities.MatchesTimePatternIff` | simple_fault_system.py:80 | the time pattern matches iff some non-empty digit run at the start of the word is immediately followed by 月, 日, 时 or 分 |
| `Entities.IsDeviceName` | simple_fault_system.py:72 | definition of the device rule; its properties are in `Entities.ExtractedWordsMeetRules` and `Entities.SelectMembers` |
| `Entities.IsFaultLocation` | simple_fault_system.py:76 | definition of the fault-location rule; its properties are in `Entities.ExtractedWordsMeetRules` and `Entities.SelectMembers` |
| `Entities.IsTimeInfo` | simple_fault_system.py:80 | definition of the time rule; its properties are in `Entities.TimeInfoIff` |
| `Entities.IsTechnicalTerm` | simple_fault_system.py:84 | definition of the technical-term rule; its properties are in `Entities.ExtractedWordsMeetRules` and `Entities.SelectMembers` |
| `Entities.Select` | simple_fault_system.py:70-85 | a bucket is no longer than the token list, and each of its words comes from a token meeting the bucket's rule |
| `Entities.SelectMembers` | simple_fault_system.py:70-85 | a word is in a bucket iff some token carrying it meets that bucket's rule |
| `Entities.SelectAppend` | simple_fault_system.py:70-85 | bucket selection distributes over concatenation of token runs, so scan order is kept |
| `Entities.Extract` | simple_fault_system.py:62-68 | the fault-phenomena list is always empty, and no bucket is longer than the token list |
| `Entities.ExtractedWordsMeetRules` | simple_fault_system.py:72-85 | every device name contains 机, 泵 or 阀 and is longer than 2; every fault location and technical term contains a keyword of its table |
| `Entities.TimeInfoIff` | simple_fault_system.py:80-81 | a word is in the time bucket iff its token is tagged exactly `t` or the word starts with digits followed by a time unit |
| `Entities.TokenLandsInItsBuckets` | simple_fault_system.py:70-85 | rules apply independently: a token lands in every bucket whose rule it meets |
| `Entities.ExtractAppend` | simple_fault_system.py:70-87 | extracting from two token runs concatenates the two bundles, bucket by bucket |
| `Entities.NoRuleMetGivesEmptyBundle` | simple_fault_system.py:62-87 | tokens that meet no rule give all-empty buckets |
| `Entities.DateWordsAreTimeInfo` | simple_fault_system.py:80 | 5月, 5月5日 and 12时30分 match the time pattern, so trailing text is allowed |
| `Entities.ClockTimeNeedsTag` | simple_fault_system.py:80 | 9:00 and 月5 do not match the pattern; 9:00 is a time expression only when tagged `t` |
| `Entities.SampleNoteEntities` | simple_fault_system.py:263 | the sample note's words 430号轧机 (tagged n) meets the device rule, 制动力 (n) the technical-term rule, and 5月 and 5日 the time rule whatever their tag |
| `Entities.MotorFreeEndIsDeviceAndLocation` | simple_fault_system.py:72-77 | the noun 电机自由端 is both a device name and a fault location |
| `Classification.TextType.Label` | simple_fault_system.py:103-107 | the three type labels are distinct, and each label identifies its type |
| `Classification.Max` | simple_fault_system.py:102 | definition of `max(inspection_count, maintenance_count)`; its properties are in `Classification.Classify` |
| `Classification.Classify` | simple_fault_system.py:89-107 | hazard iff its score is at least both others; maintenance iff it beats hazard and reaches inspection; inspection iff it strictly beats both |
| `Classification.KeywordTablesAreDistinct` | simple_fault_system.py:92-94 | none of the three keyword tables repeats an entry |
| `Classification.ScoresCountDistinctKeywords` | simple_fault_system.py:92-99 | each score is the number of distinct keywords of its table that occur, and so is at most 5 |
| `Classification.ThreeWayTieIsHazard` | simple_fault_system.py:102-103 | three equal scores classify as hazard |
| `Classification.InspectionMaintenanceTieIsMaintenance` | simple_fault_system.py:102-105 | inspection tied with maintenance above hazard classifies as maintenance |
| `Classification.SilentRivalsGiveHazard` | simple_fault_system.py:102-103 | with no inspection and no maintenance keyword, the note is a hazard, including a note with no keyword at all |
| `Classification.SampleNoteLacks` | simple_fault_system.py:263 | the first sample note uses none of 点, 查, 巡, 监, 状, 维, 保, 更, 复 |
| `Classification.NoInspectionWord` | simple_fault_system.py:92-97 | a note without those characters contains no inspection keyword |
| `Classification.AtMostOneMaintenanceWord` | simple_fault_system.py:94-99 | such a note scores at most 1 for maintenance, since only 检修 can occur |
| `Classification.AnomalyBeatsLoneMaintenanceWord` | simple_fault_system.py:93-103 | such a note that mentions 异常 is a hazard note: hazard at least 1, maintenance at most 1, inspection 0 |
| `Classification.OverhaulIsTheOnlyMaintenanceWord` | simple_fault_system.py:94-99 | a note without those characters that mentions 检修 scores exactly 1 for maintenance |
| `Classification.SampleNoteLacksOtherHazardChars` | simple_fault_system.py:263 | the first sample note uses none of 隐, 故, 报, 问 |
| `Classification.NoLaterHazardWord` | simple_fault_system.py:93-98 | a note without those characters contains none of 故障, 报警, 问题 |
| `Classification.AnomalyIsTheOnlyHazardWord` | simple_fault_system.py:93-98 | such a note that mentions 异常 scores exactly 1 for hazard |
| `Classification.SampleNoteIsHazard` | simple_fault_system.py:263 | the first sample note scores inspection 0, hazard 1 (异常) and maintenance 1 (检修); hazard and maintenance tie, and the tie classifies it as 隐患 |
| `Severity.Rating.ConfidenceTenths` | simple_fault_system.py:121-127 | the confidence is one of 0.2, 0.4, 0.6, 0.8 |
| `Severity.Rating.Label` | simple_fault_system.py:121-127 | the four rating labels are 严重, 中等, 轻微 and 正常, and each label identifies its rating |
| `Severity.AnalyzeSentiment` | simple_fault_system.py:109-127 | severe iff a severe keyword occurs; moderate iff none does and a moderate one does; mild iff neither does and a mild one does; normal otherwise |
| `Severity.LabelIsOneOfFour` | simple_fault_system.py:120-127 | the label is always 严重, 中等, 轻微 or 正常 |
| `Severity.AnomalyIsSevere` | simple_fault_system.py:112-121 | a note containing 异常 rates severe with confidence 0.8 |
| `Severity.SevereWordIsSevere` | simple_fault_system.py:112-121 | a note containing 严重 rates severe whatever else it contains |
| `Severity.SampleNoteIsSevere` | simple_fault_system.py:263 | the first sample note rates severe |
| `Severity.NoKeywordIsNormal` | simple_fault_system.py:126-127 | a note with none of the fourteen keywords rates normal at 0.2 |
| `Knowledge.Matching` | simple_fault_system.py:142-159 | every matched record is in the scanned list and mentions an extracted name in its name field |
| `Knowledge.Get` | simple_fault_system.py:143-158 | definition of `record.get(key, '')`; its properties are in `Knowledge.MatchingMembers` |
| `Knowledge.MentionsDevice` | simple_fault_system.py:143-158 | definition of the `any(device in ...)` test; its properties are in `Knowledge.MatchingMembers` and `Knowledge.QueryReadsSelectedList` |
| `Knowledge.IsTopDanger` | simple_fault_system.py:152 | definition of the A类/B类 test; its properties are in `Knowledge.Query` and `Knowledge.SampleHazardRecordMatchesAtLowRisk` |
| `Knowledge.HazardRisk` | simple_fault_system.py:146-153 | definition of the risk the hazard scan ends with; its properties are in `Diagnosis.FaultDiagnosisSystem.ScanHazards`, `Knowledge.Query` and `Knowledge.RiskIsSticky` |
| `Knowledge.RiskLevel.Label` | simple_fault_system.py:134-153 | the two risk labels are low and high, and each label identifies its level |
| `Knowledge.Query` | simple_fault_system.py:129-161 | risk is high iff the type string is 隐患 and some matched record has danger level A类 or B类 |
| `Knowledge.MatchingMembers` | simple_fault_system.py:143-144 | a record matches iff it is in the list and one extracted name occurs in its name field, a missing field reading as '' |
| `Knowledge.MatchingAppend` | simple_fault_system.py:142-159 | matching distributes over concatenation, so matched records keep list order |
| `Knowledge.NoNamesMatchNothing` | simple_fault_system.py:137-159 | with no device names no record matches |
| `Knowledge.QueryReadsSelectedList` | simple_fault_system.py:140-161 | each type matches exactly the qualifying records of its own list, using `repair_equipment` for maintenance; an unrecognised type gives no matches and low risk |
| `Knowledge.QueryIgnoresOtherLists` | simple_fault_system.py:140-161 | changing a list that the type does not select leaves the result unchanged |
| `Knowledge.QueryWithoutNames` | simple_fault_system.py:131-161 | with no device names the query gives no matches and low risk, for every type |
| `Knowledge.RiskIsSticky` | simple_fault_system.py:134-153 | once a scanned prefix has raised the risk to high, the scan of the whole list ends high |
| `Knowledge.SampleHazardRecordMatchesAtLowRisk` | simple_fault_system.py:249-258 | the six-field sample D类 hazard record matches the name 430 by substring, but the risk stays low |
| `Recommendations.LocationAdvice` | simple_fault_system.py:177-185 | advice exists iff the location contains 轴承, 润滑系统, 轧辊 or 保持架; the first of these, in that order, decides which canned string |
| `Recommendations.RecordAdvice` | simple_fault_system.py:169-173 | definition of one record's advice; its properties are in `Recommendations.RecordsAdviceMembers` |
| `Recommendations.RecordsAdvice` | simple_fault_system.py:169-173 | definition of the record loop's advice; its properties are in `Recommendations.RecordsAdviceMembers` |
| `Recommendations.LocationsAdvice` | simple_fault_system.py:176-185 | definition of the location loop's advice; its properties are in `Recommendations.LocationsAdviceMembers` and `Recommendations.LocationsAdviceIsCanned` |
| `Recommendations.Recommend` | simple_fault_system.py:163-187 | the recommendations have no duplicates and hold exactly the record advice and the location advice |
| `Recommendations.RecordsAdviceMembers` | simple_fault_system.py:169-173 | record advice is exactly the process measures prefixed 建议采取措施 and the guard measures prefixed 监护措施 of the matched records |
| `Recommendations.LocationsAdviceMembers` | simple_fault_system.py:176-185 | location advice is exactly the canned strings of the extracted locations, and unmatched locations add nothing |
| `Recommendations.LocationsAdviceIsCanned` | simple_fault_system.py:178-185 | every location advice is one of the four canned strings |
| `Recommendations.RecommendMembers` | simple_fault_system.py:163-187 | the recommendations have no duplicates; a string is recommended iff it is a prefixed measure of a matched record or the canned advice of an extracted location |
| `Recommendations.TwoBearingsOneAdvice` | simple_fault_system.py:178-187 | two bearing locations give a single bearing recommendation |
| `Recommendations.SampleHazardRecordAdvice` | simple_fault_system.py:169-173 | the sample hazard record alone yields two recommendations, 建议采取措施: 水泵拆检，清理杂物 and 监护措施: 系统隔离, in no promised order |
| `Recommendations.SampleHazardAdviceText` | simple_fault_system.py:171-173 | the prefixed sample measures spell out as those two strings |
| `Diagnosis.DiagnoseReport` | simple_fault_system.py:189-218 | definition of the report; its properties are in `Diagnosis.ReportAgreesWithStages`, `Diagnosis.ReportIgnoresTimestamp` and `Diagnosis.EmptyNoteReport` |
| `Diagnosis.ReportAgreesWithStages` | simple_fault_system.py:189-218 | risk is high iff the note classifies as hazard and a matched record is A类 or B类; a record is matched iff it is in the list the note's type selects and mentions an extracted device name in that list's name field; recommendations have no duplicates, and a string is recommended iff it is a prefixed measure of a matched record or the canned advice of an extracted location |
| `Diagnosis.ReportIgnoresTimestamp` | simple_fault_system.py:207-215 | apart from the timestamp, the report depends only on the note, its tokens and the three lists |
| `Diagnosis.EmptyNoteReport` | simple_fault_system.py:189-218 | a note with no keyword and no qualifying token gives empty buckets, hazard, normal, no matches, low risk and no advice |
| `Diagnosis.FaultDiagnosisSystem.constructor` | simple_fault_system.py:21-30 | a new system has three empty record lists |
| `Diagnosis.FaultDiagnosisSystem.ExtractEntities` | simple_fault_system.py:57-87 | the token loop builds exactly the bundle `Extract` specifies |
| `Diagnosis.FaultDiagnosisSystem.ScanRecords` | simple_fault_system.py:142-144 | the inspection or maintenance scan loop keeps exactly the records `Matching` selects, in list order |
| `Diagnosis.FaultDiagnosisSystem.ScanHazards` | simple_fault_system.py:148-153 | the hazard scan loop keeps the `Matching` records, and its in-loop risk flag ends high iff a kept record is A类 or B类 |
| `Diagnosis.FaultDiagnosisSystem.QueryKnowledgeBase` | simple_fault_system.py:129-161 | the type string selects the scan, and the result is exactly `Query` on the object's lists |
| `Diagnosis.FaultDiagnosisSystem.CollectRecordAdvice` | simple_fault_system.py:169-173 | the record loop builds exactly `RecordsAdvice`, the prefixed measures in record order |
| `Diagnosis.FaultDiagnosisSystem.CollectLocationAdvice` | simple_fault_system.py:176-185 | the location loop's if/elif chain builds exactly `LocationsAdvice`, one first-match entry per matching location |
| `Diagnosis.FaultDiagnosisSystem.GenerateRecommendations` | simple_fault_system.py:163-187 | the two loops and deduplication give exactly `Recommend`, whose members and lack of duplicates `RecommendMembers` states |
| `Diagnosis.FaultDiagnosisSystem.Diagnose` | simple_fault_system.py:189-218 | the report equals `DiagnoseReport` on the object's lists, which `Diagnose` does not change |

## Left out

- Tokenizer setup (`setup_custom_dict`, simple_fault_system.py:32-55) and the
  tagging call `pseg.cut`: they write a file and call into an external
  library. The tagged tokens are an input instead. The model does not relate
  them to the note text.
- `datetime.now()`: the wall-clock read becomes a string parameter.
- Confidence floats: they are kept as the four fixed values, in tenths.
- The order of `list(set(...))`: it is undefined in the source. The model
  fixes one order: `Dedup` keeps first occurrences, so `Recommend` and
  `Diagnosis.FaultDiagnosisSystem.GenerateRecommendations` (whose result
  equals `Recommend`) return that order. The lemmas about recommendations
  state only membership, length and absence of duplicates, which hold for
  every order.
- `Entities.IsDigit`: covers ASCII and full-width digits only. Python's `\d`
  also accepts the other Unicode decimal digits.
- Knowledge records hold string values only. Non-string field values and the
  formatting of such values in recommendation strings are not modelled.
- `device_master`, `component_master` (simple_fault_system.py:26-27) and the
  `recommendations` entry of the query result (:133): the pipeline never
  reads them.
- `format_output` and `main`: display text and printing. Only the sample
  record and the first sample note are modelled, as constants.
- simple_deploy_server.py and deploy_server.py: HTTP routing and JSON
  plumbing. industrial_fault_system is not part of this model.
