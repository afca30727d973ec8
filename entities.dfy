/**
 Entity extraction (simple_fault_system.py, `extract_entities`). The
 part-of-speech tagger is external: its output is the input here, one
 `Token` per (word, tag) pair in scan order. Each bucket of the result is the
 in-order list of the words of the tokens that meet that bucket's rule; a
 token may land in several buckets, and nothing is deduplicated.
 */
module Entities {
  import opened Text

  /** One (word, part-of-speech tag) pair produced by the tagger. */
  datatype Token = Token(word: string, flag: string)

  /** The five lists of `extract_entities`' result, in scan order. */
  datatype EntityBundle = EntityBundle(
    deviceNames: seq<string>,
    faultLocations: seq<string>,
    faultPhenomena: seq<string>,
    timeInfo: seq<string>,
    technicalTerms: seq<string>)

  const DeviceKeywords: seq<string> := ["机", "泵", "阀"]
  const LocationKeywords: seq<string> := ["系统", "部位", "端", "轴承", "轧辊", "保持架"]
  const TermKeywords: seq<string> := ["力", "谱", "振动", "温度"]

  /** `'n' in flag`: the letter n occurs anywhere in the tag (n, nr, nz, vn, eng, ...). */
  predicate IsNounTag(flag: string) {
    'n' in flag
  }

  /** Device-name rule: a noun containing 机, 泵 or 阀 and longer than two characters. */
  predicate IsDeviceName(t: Token) {
    IsNounTag(t.flag) && ContainsAny(t.word, DeviceKeywords) && |t.word| > 2
  }

  /** Fault-location rule: a noun containing one of the location keywords. */
  predicate IsFaultLocation(t: Token) {
    IsNounTag(t.flag) && ContainsAny(t.word, LocationKeywords)
  }

  /** Technical-term rule: a noun containing one of the term keywords. */
  predicate IsTechnicalTerm(t: Token) {
    IsNounTag(t.flag) && ContainsAny(t.word, TermKeywords)
  }

  /** The characters the pattern's `\d` accepts in this model: ASCII and full-width digits. */
  predicate IsDigit(c: char) {
    ('0' <= c <= '9') || ('０' <= c <= '９')
  }

  /** The character class `[月日时分]`. */
  predicate IsTimeUnit(c: char) {
    c == '月' || c == '日' || c == '时' || c == '分'
  }

  /** The first `k` characters of `w` are all digits. */
  predicate DigitRun(w: string, k: nat)
    requires k <= |w|
  {
    forall j | 0 <= j < k :: IsDigit(w[j])
  }

  /** Length of the longest all-digit prefix of `w` (what greedy `\d+` consumes). */
  function LeadingDigits(w: string): (r: nat)
    ensures r <= |w| && DigitRun(w, r)
    ensures r < |w| ==> !IsDigit(w[r])
  {
    if w != [] && IsDigit(w[0]) then 1 + LeadingDigits(w[1..]) else 0
  }

  /**
   `re.match(r'\d+[月日时分]', w)` succeeds: the match is anchored at the start
   only, so whatever follows the unit character is allowed.
   */
  predicate MatchesTimePattern(w: string) {
    var k := LeadingDigits(w);
    0 < k < |w| && IsTimeUnit(w[k])
  }

  /**
   The scanner agrees with the pattern's meaning: some non-empty run of digits
   at the start of the word is immediately followed by a time unit.
   */
  lemma MatchesTimePatternIff(w: string)
    ensures MatchesTimePattern(w) <==>
      exists k | 1 <= k < |w| :: DigitRun(w, k) && IsTimeUnit(w[k])
  {
    var r := LeadingDigits(w);
    if k :| 1 <= k < |w| && DigitRun(w, k) && IsTimeUnit(w[k]) {
      assert r == k;
    }
  }

  /** Time rule: tagged exactly `t`, or the word starts with digits and a time unit. */
  predicate IsTimeInfo(t: Token) {
    t.flag == "t" || MatchesTimePattern(t.word)
  }

  /** The words of the tokens meeting `p`, in scan order. */
  function Select(tokens: seq<Token>, p: Token -> bool): (r: seq<string>)
    ensures |r| <= |tokens|
    ensures forall w :: w in r ==> exists t :: t in tokens && p(t) && t.word == w
  {
    if tokens == [] then []
    else
      var last := tokens[|tokens| - 1];
      assert forall t :: t in tokens[..|tokens| - 1] ==> t in tokens;
      Select(tokens[..|tokens| - 1], p) + (if p(last) then [last.word] else [])
  }

  /** A word is selected exactly when some token carrying it meets the rule. */
  lemma {:induction false} SelectMembers(tokens: seq<Token>, p: Token -> bool, w: string)
    ensures w in Select(tokens, p) <==> exists t :: t in tokens && p(t) && t.word == w
  {
    if tokens != [] {
      var init := tokens[..|tokens| - 1];
      SelectMembers(init, p, w);
      assert tokens == init + [tokens[|tokens| - 1]];
    }
  }

  /** Selection distributes over concatenation: it keeps the scan order. */
  lemma {:induction false} SelectAppend(a: seq<Token>, b: seq<Token>, p: Token -> bool)
    ensures Select(a + b, p) == Select(a, p) + Select(b, p)
  {
    if b != [] {
      var init := b[..|b| - 1];
      SelectAppend(a, init, p);
      var last := b[|b| - 1];
      var extra := if p(last) then [last.word] else [];
      assert (a + b)[..|a + b| - 1] == a + init;
      assert (a + b)[|a + b| - 1] == last;
      assert Select(a + b, p) == Select(a + init, p) + extra;
      assert Select(b, p) == Select(init, p) + extra;
    } else {
      assert a + b == a;
    }
  }

  /** `extract_entities` as a function of the tagged tokens. */
  function Extract(tokens: seq<Token>): (e: EntityBundle)
    ensures e.faultPhenomena == []
    ensures |e.deviceNames| <= |tokens| && |e.faultLocations| <= |tokens|
    ensures |e.timeInfo| <= |tokens| && |e.technicalTerms| <= |tokens|
  {
    EntityBundle(
      Select(tokens, IsDeviceName),
      Select(tokens, IsFaultLocation),
      [],
      Select(tokens, IsTimeInfo),
      Select(tokens, IsTechnicalTerm))
  }

  /**
   Every extracted device name contains 机, 泵 or 阀 and is longer than two
   characters; every fault location and technical term contains one of its
   table's keywords.
   */
  lemma ExtractedWordsMeetRules(tokens: seq<Token>)
    ensures forall w :: w in Extract(tokens).deviceNames ==>
      |w| > 2 && ContainsAny(w, DeviceKeywords)
    ensures forall w :: w in Extract(tokens).faultLocations ==> ContainsAny(w, LocationKeywords)
    ensures forall w :: w in Extract(tokens).technicalTerms ==> ContainsAny(w, TermKeywords)
  {
    forall w | w in Extract(tokens).deviceNames
      ensures |w| > 2 && ContainsAny(w, DeviceKeywords)
    {
      SelectMembers(tokens, IsDeviceName, w);
    }
    forall w | w in Extract(tokens).faultLocations ensures ContainsAny(w, LocationKeywords) {
      SelectMembers(tokens, IsFaultLocation, w);
    }
    forall w | w in Extract(tokens).technicalTerms ensures ContainsAny(w, TermKeywords) {
      SelectMembers(tokens, IsTechnicalTerm, w);
    }
  }

  /**
   The time bucket holds exactly the words of tokens tagged `t` or starting
   with digits followed by 月, 日, 时 or 分.
   */
  lemma TimeInfoIff(tokens: seq<Token>, w: string)
    ensures w in Extract(tokens).timeInfo <==>
      exists t :: t in tokens && t.word == w && (t.flag == "t" || MatchesTimePattern(w))
  {
    SelectMembers(tokens, IsTimeInfo, w);
  }

  /** Each token is placed independently: it is in every bucket whose rule it meets. */
  lemma TokenLandsInItsBuckets(tokens: seq<Token>, t: Token)
    requires t in tokens
    ensures IsDeviceName(t) ==> t.word in Extract(tokens).deviceNames
    ensures IsFaultLocation(t) ==> t.word in Extract(tokens).faultLocations
    ensures IsTimeInfo(t) ==> t.word in Extract(tokens).timeInfo
    ensures IsTechnicalTerm(t) ==> t.word in Extract(tokens).technicalTerms
  {
    SelectMembers(tokens, IsDeviceName, t.word);
    SelectMembers(tokens, IsFaultLocation, t.word);
    SelectMembers(tokens, IsTimeInfo, t.word);
    SelectMembers(tokens, IsTechnicalTerm, t.word);
  }

  /** Extracting from two token runs gives the concatenation of the two bundles. */
  lemma ExtractAppend(a: seq<Token>, b: seq<Token>)
    ensures Extract(a + b).deviceNames == Extract(a).deviceNames + Extract(b).deviceNames
    ensures Extract(a + b).faultLocations == Extract(a).faultLocations + Extract(b).faultLocations
    ensures Extract(a + b).timeInfo == Extract(a).timeInfo + Extract(b).timeInfo
    ensures Extract(a + b).technicalTerms == Extract(a).technicalTerms + Extract(b).technicalTerms
  {
    SelectAppend(a, b, IsDeviceName);
    SelectAppend(a, b, IsFaultLocation);
    SelectAppend(a, b, IsTimeInfo);
    SelectAppend(a, b, IsTechnicalTerm);
  }

  /** Tokens that meet no rule give a bundle whose lists are all empty. */
  lemma {:induction false} NoRuleMetGivesEmptyBundle(tokens: seq<Token>)
    requires forall t :: t in tokens ==>
      !IsDeviceName(t) && !IsFaultLocation(t) && !IsTimeInfo(t) && !IsTechnicalTerm(t)
    ensures Extract(tokens) == EntityBundle([], [], [], [], [])
  {
    if tokens != [] {
      var init := tokens[..|tokens| - 1];
      assert forall t :: t in init ==> t in tokens;
      NoRuleMetGivesEmptyBundle(init);
    }
  }

  /** A word such as 5月5日 is a time expression; trailing text after the unit is allowed. */
  lemma DateWordsAreTimeInfo()
    ensures MatchesTimePattern("5月")
    ensures MatchesTimePattern("5月5日")
    ensures MatchesTimePattern("12时30分")
  {
    assert LeadingDigits("月") == 0;
    assert LeadingDigits("5月") == 1 + LeadingDigits("月");
    assert LeadingDigits("月5日") == 0;
    assert LeadingDigits("5月5日") == 1 + LeadingDigits("月5日");
    assert LeadingDigits("时30分") == 0;
    assert LeadingDigits("2时30分") == 1 + LeadingDigits("时30分");
    assert LeadingDigits("12时30分") == 1 + LeadingDigits("2时30分");
  }

  /**
   A clock time such as 9:00 does not match the pattern, and neither does a
   unit before the digits: such words reach the time bucket only when tagged `t`.
   */
  lemma ClockTimeNeedsTag()
    ensures !MatchesTimePattern("9:00")
    ensures !MatchesTimePattern("月5")
    ensures !IsTimeInfo(Token("9:00", "m"))
    ensures IsTimeInfo(Token("9:00", "t"))
  {
    assert LeadingDigits(":00") == 0;
    assert LeadingDigits("9:00") == 1 + LeadingDigits(":00");
    assert LeadingDigits("月5") == 0;
  }

  /** A single token can be both a device name and a fault location. */
  lemma MotorFreeEndIsDeviceAndLocation()
    ensures IsDeviceName(Token("电机自由端", "n"))
    ensures IsFaultLocation(Token("电机自由端", "n"))
  {
    ContainsAt("电机自由端", "机", 1);
    assert DeviceKeywords[0] == "机";
    ContainsAt("电机自由端", "端", 4);
    assert LocationKeywords[2] == "端";
  }

  /**
   Words of the first sample note as a tagger may tag them: the mill
   430号轧机 is a device name, 制动力 (braking force) a technical term, and
   5月 and 5日 time expressions.
   */
  lemma SampleNoteEntities()
    ensures IsDeviceName(Token("430号轧机", "n"))
    ensures IsTechnicalTerm(Token("制动力", "n"))
    ensures IsTimeInfo(Token("5月", "m")) && IsTimeInfo(Token("5日", "m"))
  {
    ContainsAt("430号轧机", "机", 5);
    assert DeviceKeywords[0] == "机";
    ContainsAt("制动力", "力", 2);
    assert TermKeywords[0] == "力";
    assert LeadingDigits("月") == 0 && LeadingDigits("5月") == 1 + LeadingDigits("月");
    assert LeadingDigits("日") == 0 && LeadingDigits("5日") == 1 + LeadingDigits("日");
  }
}
