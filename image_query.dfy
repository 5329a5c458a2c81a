/**
 * `getTaskImageQuery`: the stock-photo search phrase chosen for a task
 * title. The source writes it as a chain of `if`s over the lower-cased
 * title; `FirstRuleFrom` states the same choice as "the first rule of the
 * table one of whose keywords occurs", and the lemmas relate the two.
 */
module ImageQuery {
  import opened Text

  /** A row of the chain: any of `keywords` selects `query`. */
  datatype Rule = Rule(keywords: seq<string>, query: string)

  /** Line 87: the phrase when no rule applies. */
  const DefaultQuery := "productivity task"

  /** Lines 72-85: the keywords of each rule. */
  const DesignWords: seq<string> := ["design", "ui", "ux"]
  const CodingWords: seq<string> := ["code", "programming", "develop"]
  const MeetingWords: seq<string> := ["meeting", "presentation"]
  const WritingWords: seq<string> := ["write", "article", "blog"]
  const MarketingWords: seq<string> := ["marketing", "social media"]
  const FitnessWords: seq<string> := ["fitness", "workout", "gym"]
  const StudyWords: seq<string> := ["study", "learn", "course"]
  const PhotoWords: seq<string> := ["photo", "photography"]
  const VideoWords: seq<string> := ["video", "editing"]
  const ResearchWords: seq<string> := ["research"]
  const ReviewWords: seq<string> := ["review", "feedback"]
  const DataWords: seq<string> := ["database", "data"]
  const TestingWords: seq<string> := ["test", "qa"]
  const DocsWords: seq<string> := ["documentation", "docs"]

  /** Lines 72-85: the phrase each rule selects. */
  const DesignQuery := "design workspace"
  const CodingQuery := "coding programming"
  const MeetingQuery := "business meeting"
  const WritingQuery := "writing workspace"
  const MarketingQuery := "digital marketing"
  const FitnessQuery := "fitness workout"
  const StudyQuery := "studying learning"
  const PhotoQuery := "photography camera"
  const VideoQuery := "video editing"
  const ResearchQuery := "research workspace"
  const ReviewQuery := "review feedback"
  const DataQuery := "data analytics"
  const TestingQuery := "software testing"
  const DocsQuery := "documentation writing"

  /** Lines 72-85, in the order the chain tests them. */
  const ImageRules: seq<Rule> := [
    Rule(DesignWords, DesignQuery),
    Rule(CodingWords, CodingQuery),
    Rule(MeetingWords, MeetingQuery),
    Rule(WritingWords, WritingQuery),
    Rule(MarketingWords, MarketingQuery),
    Rule(FitnessWords, FitnessQuery),
    Rule(StudyWords, StudyQuery),
    Rule(PhotoWords, PhotoQuery),
    Rule(VideoWords, VideoQuery),
    Rule(ResearchWords, ResearchQuery),
    Rule(ReviewWords, ReviewQuery),
    Rule(DataWords, DataQuery),
    Rule(TestingWords, TestingQuery),
    Rule(DocsWords, DocsQuery)
  ]

  /** The query of the first rule from the `from`-th on one of whose keywords
      occurs in `lowered`. */
  function FirstRuleFrom(rules: seq<Rule>, from: nat, lowered: string): (q: string)
    requires from <= |rules|
    ensures q == DefaultQuery || exists k :: from <= k < |rules| && q == rules[k].query
    decreases |rules| - from
  {
    if from == |rules| then DefaultQuery
    else if ContainsAny(lowered, rules[from].keywords) then rules[from].query
    else FirstRuleFrom(rules, from + 1, lowered)
  }

  /** Lines 69-88: `getTaskImageQuery(taskTitle)`. */
  function TaskImageQuery(taskTitle: string): (q: string)
    ensures ContainsAny(LowerStr(taskTitle), DesignWords) ==> q == DesignQuery
    ensures q == DefaultQuery || exists k :: 0 <= k < |ImageRules| && q == ImageRules[k].query
  {
    var title := LowerStr(taskTitle);
    assert ImageRules[0].query == DesignQuery;
    assert ImageRules[1].query == CodingQuery;
    assert ImageRules[2].query == MeetingQuery;
    assert ImageRules[3].query == WritingQuery;
    assert ImageRules[4].query == MarketingQuery;
    assert ImageRules[5].query == FitnessQuery;
    assert ImageRules[6].query == StudyQuery;
    assert ImageRules[7].query == PhotoQuery;
    assert ImageRules[8].query == VideoQuery;
    assert ImageRules[9].query == ResearchQuery;
    assert ImageRules[10].query == ReviewQuery;
    assert ImageRules[11].query == DataQuery;
    assert ImageRules[12].query == TestingQuery;
    assert ImageRules[13].query == DocsQuery;
    if ContainsAny(title, DesignWords) then DesignQuery
    else if ContainsAny(title, CodingWords) then CodingQuery
    else if ContainsAny(title, MeetingWords) then MeetingQuery
    else if ContainsAny(title, WritingWords) then WritingQuery
    else if ContainsAny(title, MarketingWords) then MarketingQuery
    else if ContainsAny(title, FitnessWords) then FitnessQuery
    else if ContainsAny(title, StudyWords) then StudyQuery
    else if ContainsAny(title, PhotoWords) then PhotoQuery
    else if ContainsAny(title, VideoWords) then VideoQuery
    else if ContainsAny(title, ResearchWords) then ResearchQuery
    else if ContainsAny(title, ReviewWords) then ReviewQuery
    else if ContainsAny(title, DataWords) then DataQuery
    else if ContainsAny(title, TestingWords) then TestingQuery
    else if ContainsAny(title, DocsWords) then DocsQuery
    else DefaultQuery
  }

  /** The chain is the rule table read top to bottom. */
  lemma ChainIsRuleTable(taskTitle: string)
    ensures TaskImageQuery(taskTitle) == FirstRuleFrom(ImageRules, 0, LowerStr(taskTitle))
  {
    var t := LowerStr(taskTitle);
    // Build the chain from its last rule up; after each step `tail` is the
    // rest of the chain and the table read from that rule on.
    var tail := DefaultQuery;
    tail := if ContainsAny(t, DocsWords) then DocsQuery else tail;
    assert FirstRuleFrom(ImageRules, 13, t) == tail;
    tail := if ContainsAny(t, TestingWords) then TestingQuery else tail;
    assert FirstRuleFrom(ImageRules, 12, t) == tail;
    tail := if ContainsAny(t, DataWords) then DataQuery else tail;
    assert FirstRuleFrom(ImageRules, 11, t) == tail;
    tail := if ContainsAny(t, ReviewWords) then ReviewQuery else tail;
    assert FirstRuleFrom(ImageRules, 10, t) == tail;
    tail := if ContainsAny(t, ResearchWords) then ResearchQuery else tail;
    assert FirstRuleFrom(ImageRules, 9, t) == tail;
    tail := if ContainsAny(t, VideoWords) then VideoQuery else tail;
    assert FirstRuleFrom(ImageRules, 8, t) == tail;
    tail := if ContainsAny(t, PhotoWords) then PhotoQuery else tail;
    assert FirstRuleFrom(ImageRules, 7, t) == tail;
    tail := if ContainsAny(t, StudyWords) then StudyQuery else tail;
    assert FirstRuleFrom(ImageRules, 6, t) == tail;
    tail := if ContainsAny(t, FitnessWords) then FitnessQuery else tail;
    assert FirstRuleFrom(ImageRules, 5, t) == tail;
    tail := if ContainsAny(t, MarketingWords) then MarketingQuery else tail;
    assert FirstRuleFrom(ImageRules, 4, t) == tail;
    tail := if ContainsAny(t, WritingWords) then WritingQuery else tail;
    assert FirstRuleFrom(ImageRules, 3, t) == tail;
    tail := if ContainsAny(t, MeetingWords) then MeetingQuery else tail;
    assert FirstRuleFrom(ImageRules, 2, t) == tail;
    tail := if ContainsAny(t, CodingWords) then CodingQuery else tail;
    assert FirstRuleFrom(ImageRules, 1, t) == tail;
    tail := if ContainsAny(t, DesignWords) then DesignQuery else tail;
    assert FirstRuleFrom(ImageRules, 0, t) == tail;
  }

  /** A title gets the query of rule `k` exactly when a keyword of rule `k`
      occurs in it and none of an earlier rule does. */
  lemma {:induction false} FirstMatchingRuleWins(rules: seq<Rule>, from: nat, lowered: string, k: nat)
    requires from <= k < |rules|
    requires ContainsAny(lowered, rules[k].keywords)
    requires forall j :: from <= j < k ==> !ContainsAny(lowered, rules[j].keywords)
    ensures FirstRuleFrom(rules, from, lowered) == rules[k].query
    decreases k - from
  {
    if from < k {
      FirstMatchingRuleWins(rules, from + 1, lowered, k);
    }
  }

  /** The default phrase is chosen exactly when no keyword of any rule occurs
      (no rule of the table has the default as its query). */
  lemma {:induction false} DefaultIffNoRuleApplies(rules: seq<Rule>, from: nat, lowered: string)
    requires from <= |rules|
    requires forall k :: 0 <= k < |rules| ==> rules[k].query != DefaultQuery
    ensures FirstRuleFrom(rules, from, lowered) == DefaultQuery
            <==> forall k :: from <= k < |rules| ==> !ContainsAny(lowered, rules[k].keywords)
    decreases |rules| - from
  {
    if from < |rules| {
      DefaultIffNoRuleApplies(rules, from + 1, lowered);
    }
  }

  /** Lines 72-87: a title gets `productivity task` exactly when it contains
      none of the keywords. */
  lemma DefaultQueryWhenNoKeyword(taskTitle: string)
    ensures TaskImageQuery(taskTitle) == DefaultQuery <==> forall k :: 0 <= k < |ImageRules| ==> !ContainsAny(LowerStr(taskTitle), ImageRules[k].keywords)
  {
    ChainIsRuleTable(taskTitle);
    DefaultIffNoRuleApplies(ImageRules, 0, LowerStr(taskTitle));
  }

  /** Keywords match anywhere in the title, also inside other words: "ui" in
      "Build" selects the design photo. */
  lemma KeywordsMatchInsideWords()
    ensures TaskImageQuery("Build the API") == "design workspace"
  {
    var t := LowerStr("Build the API");
    assert t[1] == Lower('u') == 'u' && t[2] == Lower('i') == 'i';
    assert t[1..3] == "ui";
    assert OccursAt(t, "ui", 1);
    assert Contains(t, ["design", "ui", "ux"][1]);
  }
}
