/**
 Severity rating (simple_fault_system.py, `analyze_sentiment`). Three keyword
 tiers are checked for presence in priority order; the first tier with a
 keyword present decides the label, and the confidence is fixed per label.
 */
module Severity {
  import opened Text
  import opened Classification

  /** The four ratings; `Label` is the source's string, `ConfidenceTenths` its confidence times ten. */
  datatype Rating = Severe | Moderate | Mild | Normal {
    function Label(): (s: string)
      ensures s == "严重" <==> this == Severe
      ensures s == "中等" <==> this == Moderate
      ensures s == "轻微" <==> this == Mild
      ensures s == "正常" <==> this == Normal
    {
      match this
      case Severe => "严重"
      case Moderate => "中等"
      case Mild => "轻微"
      case Normal => "正常"
    }

    /** 0.8, 0.6, 0.4 and 0.2, as integer tenths. */
    function ConfidenceTenths(): (c: nat)
      ensures 2 <= c <= 8 && c % 2 == 0
    {
      match this
      case Severe => 8
      case Moderate => 6
      case Mild => 4
      case Normal => 2
    }
  }

  const SevereKeywords: seq<string> := ["严重", "紧急", "危险", "故障", "异常", "报警"]
  const ModerateKeywords: seq<string> := ["问题", "异常", "波动", "不稳定"]
  const MildKeywords: seq<string> := ["轻微", "小问题", "注意", "观察"]

  /**
   `analyze_sentiment`: severe if any severe-tier keyword occurs, whatever else
   occurs; moderate only when no severe keyword does; mild only when neither a
   severe nor a moderate keyword does; normal otherwise.
   */
  function AnalyzeSentiment(text: string): (r: Rating)
    ensures r == Severe <==> ContainsAny(text, SevereKeywords)
    ensures r == Moderate <==>
      !ContainsAny(text, SevereKeywords) && ContainsAny(text, ModerateKeywords)
    ensures r == Mild <==>
      !ContainsAny(text, SevereKeywords) && !ContainsAny(text, ModerateKeywords)
      && ContainsAny(text, MildKeywords)
    ensures r == Normal <==>
      !ContainsAny(text, SevereKeywords) && !ContainsAny(text, ModerateKeywords)
      && !ContainsAny(text, MildKeywords)
  {
    if CountPresent(SevereKeywords, text) > 0 then Severe
    else if CountPresent(ModerateKeywords, text) > 0 then Moderate
    else if CountPresent(MildKeywords, text) > 0 then Mild
    else Normal
  }

  /** The label is always one of the four strings the source returns. */
  lemma LabelIsOneOfFour(text: string)
    ensures AnalyzeSentiment(text).Label() in ["严重", "中等", "轻微", "正常"]
  {
  }

  /**
   异常 is in the severe tier, so a note mentioning it is severe; the moderate
   tier's own 异常 entry can never decide the rating.
   */
  lemma AnomalyIsSevere(text: string)
    requires Contains(text, "异常")
    ensures AnalyzeSentiment(text) == Severe
    ensures AnalyzeSentiment(text).ConfidenceTenths() == 8
  {
    assert SevereKeywords[4] == "异常";
  }

  /** Likewise for 严重 (it is the first severe-tier keyword). */
  lemma SevereWordIsSevere(text: string)
    requires Contains(text, "严重")
    ensures AnalyzeSentiment(text) == Severe
  {
    assert SevereKeywords[0] == "严重";
  }

  /**
   The sample note about mill 430's braking force rates severe at 0.8, not
   moderate: it mentions 异常.
   */
  lemma SampleNoteIsSevere()
    ensures AnalyzeSentiment(SampleNote) == Severe
  {
    ContainsAt(SampleNote, "异常", |SampleNote| - 4);
    AnomalyIsSevere(SampleNote);
  }

  /** A note mentioning none of the fourteen keywords rates normal at 0.2. */
  lemma NoKeywordIsNormal(text: string)
    requires forall k :: k in SevereKeywords + ModerateKeywords + MildKeywords ==> !Contains(text, k)
    ensures AnalyzeSentiment(text) == Normal && AnalyzeSentiment(text).ConfidenceTenths() == 2
  {
  }
}
