/**
 * `AIService._classify_query_type` of agrolens-backend/app/main.py: the
 * query is lower-cased and the label of the first keyword group with a
 * keyword occurring in it is returned, "general_advice" when none does.
 * The if/elif chain is written as an ordered rule table.
 */
module QueryClassifier {
  import opened Text

  /** One branch of the chain: any of `keywords` selects `answer`. */
  datatype Rule = Rule(keywords: seq<string>, answer: string)

  const GeneralAdvice: string := "general_advice"

  /** The branches, in the order the chain tries them. */
  const Rules: seq<Rule> := [
    Rule(["crop", "plant", "grow", "harvest"], "crop_selection"),
    Rule(["fertilizer", "nutrient", "npk", "compost"], "fertilizer_advice"),
    Rule(["water", "irrigat", "moisture", "drain"], "water_management"),
    Rule(["problem", "issue", "disease", "pest", "yellow", "brown"], "problem_solving"),
    Rule(["soil type", "test", "analysis", "ph", "texture"], "soil_analysis"),
    Rule(["improve", "amend", "quality", "health"], "soil_improvement")
  ]

  /** The seven answers the classifier can give. */
  const Labels: set<string> := {
    "crop_selection", "fertilizer_advice", "water_management", "problem_solving",
    "soil_analysis", "soil_improvement", GeneralAdvice
  }

  /** `any(word in text for word in keywords)`. */
  function AnyOccurs(text: string, keywords: seq<string>): (b: bool)
    ensures b <==> exists k :: 0 <= k < |keywords| && Contains(text, keywords[k])
  {
    if keywords == [] then false
    else
      var rest := AnyOccurs(text, keywords[1..]);
      assert rest <==> exists k :: 1 <= k < |keywords| && Contains(text, keywords[k]) by {
        if exists k :: 1 <= k < |keywords| && Contains(text, keywords[k]) {
          var k :| 1 <= k < |keywords| && Contains(text, keywords[k]);
          assert keywords[1..][k - 1] == keywords[k];
        }
      }
      Contains(text, keywords[0]) || rest
  }

  /** The chain over `rules`: the answer of the first rule that fires. */
  function FirstMatch(text: string, rules: seq<Rule>): string {
    if rules == [] then GeneralAdvice
    else if AnyOccurs(text, rules[0].keywords) then rules[0].answer
    else FirstMatch(text, rules[1..])
  }

  /** `_classify_query_type(query)`: always one of the seven labels. */
  function ClassifyQueryType(query: string): (answer: string)
    ensures answer in Labels
  {
    var text := Lower(query);
    FirstMatchIsFirstFiring(text, Rules);
    FirstFiringOrNone(text);
    FirstMatch(text, Rules)
  }

  /** Rule `i` is the first of `rules` that fires on `text`. */
  predicate FiresFirst(text: string, rules: seq<Rule>, i: int) {
    && 0 <= i < |rules|
    && AnyOccurs(text, rules[i].keywords)
    && forall j :: 0 <= j < i ==> !AnyOccurs(text, rules[j].keywords)
  }

  /** The chain answers with the label of the rule that fires first, and
      with the fallback exactly when no rule fires. */
  lemma {:induction false} FirstMatchIsFirstFiring(text: string, rules: seq<Rule>)
    ensures (forall i :: 0 <= i < |rules| ==> !AnyOccurs(text, rules[i].keywords)) ==> FirstMatch(text, rules) == GeneralAdvice
    ensures forall i :: FiresFirst(text, rules, i) ==> FirstMatch(text, rules) == rules[i].answer
    decreases |rules|
  {
    if rules != [] && !AnyOccurs(text, rules[0].keywords) {
      FirstMatchIsFirstFiring(text, rules[1..]);
      forall i | FiresFirst(text, rules, i)
        ensures FirstMatch(text, rules) == rules[i].answer
      {
        assert FiresFirst(text, rules[1..], i - 1);
      }
    }
  }

  /** No two branches share a label, and none answers the fallback. */
  lemma RuleLabelsDistinct()
    ensures forall i, j :: 0 <= i < j < |Rules| ==> Rules[i].answer != Rules[j].answer
    ensures forall i :: 0 <= i < |Rules| ==> Rules[i].answer != GeneralAdvice
  {
  }

  /** The classifier answers the label of branch `i` exactly when branch `i`
      is the first whose keywords occur in the lower-cased query. */
  lemma ClassifyPicksFirstMatchingGroup(query: string, i: int)
    requires 0 <= i < |Rules|
    ensures ClassifyQueryType(query) == Rules[i].answer <==> FiresFirst(Lower(query), Rules, i)
  {
    var text := Lower(query);
    FirstMatchIsFirstFiring(text, Rules);
    RuleLabelsDistinct();
    if ClassifyQueryType(query) == Rules[i].answer && !FiresFirst(text, Rules, i) {
      FirstFiringOrNone(text);
    }
  }

  /** Either no branch fires or one of them fires first. */
  lemma FirstFiringOrNone(text: string)
    ensures (forall i :: 0 <= i < |Rules| ==> !AnyOccurs(text, Rules[i].keywords))
         || exists i :: FiresFirst(text, Rules, i)
  {
    if exists i :: 0 <= i < |Rules| && AnyOccurs(text, Rules[i].keywords) {
      var k :| 0 <= k < |Rules| && AnyOccurs(text, Rules[k].keywords);
      var i := 0;
      while !AnyOccurs(text, Rules[i].keywords)
        invariant 0 <= i <= k
        invariant forall j :: 0 <= j < i ==> !AnyOccurs(text, Rules[j].keywords)
        decreases k - i
      {
        i := i + 1;
      }
      assert FiresFirst(text, Rules, i);
    }
  }

  /** "general_advice" exactly when no keyword of any group occurs. */
  lemma ClassifyFallsBackToGeneralAdvice(query: string)
    ensures ClassifyQueryType(query) == GeneralAdvice
        <==> forall i :: 0 <= i < |Rules| ==> !AnyOccurs(Lower(query), Rules[i].keywords)
  {
    var text := Lower(query);
    FirstMatchIsFirstFiring(text, Rules);
    RuleLabelsDistinct();
    FirstFiringOrNone(text);
  }

  /** Upper and lower case give the same answer. */
  lemma ClassifyIgnoresCase(query: string)
    ensures ClassifyQueryType(Lower(query)) == ClassifyQueryType(query)
  {
    LowerProperties(query);
  }

  // ---------------------------------------------------------------------
  // Keywords match as substrings

  /** A group none of whose keywords can occur: each keyword holds a
      character (its witness) that the text lacks. */
  lemma NoKeywordOccurs(text: string, keywords: seq<string>, witnesses: string)
    requires |witnesses| == |keywords|
    requires forall k :: 0 <= k < |keywords| ==> witnesses[k] in keywords[k] && witnesses[k] !in text
    ensures !AnyOccurs(text, keywords)
  {
    forall k | 0 <= k < |keywords|
      ensures !Contains(text, keywords[k])
    {
      MissingCharRulesOut(text, keywords[k], witnesses[k]);
    }
  }

  lemma IrrigationMatchesWaterGroupFirst(text: string)
    requires text == "irrigation"
    ensures !AnyOccurs(text, Rules[0].keywords) && !AnyOccurs(text, Rules[1].keywords)
    ensures AnyOccurs(text, Rules[2].keywords)
  {
    assert OccursAt(text, "irrigat", 0);
    NoKeywordOccurs(text, Rules[0].keywords, "cpwh");
    NoKeywordOccurs(text, Rules[1].keywords, "fupc");
  }

  /** The stem 'irrigat' occurs in "irrigation", so any casing of that word
      is a water-management query. */
  lemma IrrigationIsWaterManagement(query: string)
    requires Lower(query) == "irrigation"
    ensures ClassifyQueryType(query) == "water_management"
  {
    IrrigationMatchesWaterGroupFirst(Lower(query));
    ClassifyPicksFirstMatchingGroup(query, 2);
  }

  /** 'pest' has no character missing from "soil type", but its only 'p'
      comes too late for a match. */
  lemma PestTooLateInSoilType(text: string)
    requires text == "soil type"
    ensures !Contains(text, "pest")
  {
    forall i | 0 <= i && i + 4 <= |text|
      ensures !OccursAt(text, "pest", i)
    {
      assert text[i] != 'p';
      assert text[i..i + 4][0] == text[i] != "pest"[0];
    }
  }

  /** Groups 1 to 3 each hold a character that "soil type" lacks in every
      keyword. */
  lemma SoilTypeMissesGroup(text: string, j: int)
    requires text == "soil type" && 0 <= j < 3
    ensures !AnyOccurs(text, Rules[j].keywords)
  {
    var witnesses := ["cagh", "fnnc", "wrmd"];
    NoKeywordOccurs(text, Rules[j].keywords, witnesses[j]);
  }

  lemma SoilTypeMissesProblemGroup(text: string)
    requires text == "soil type"
    ensures !AnyOccurs(text, Rules[3].keywords)
  {
    var problems := Rules[3].keywords;
    forall k | 0 <= k < |problems|
      ensures !Contains(text, problems[k])
    {
      if k == 3 {
        PestTooLateInSoilType(text);
      } else {
        MissingCharRulesOut(text, problems[k], "rud-wb"[k]);
      }
    }
  }

  lemma SoilTypeMatchesAnalysisGroupFirst(text: string)
    requires text == "soil type"
    ensures forall j :: 0 <= j < 4 ==> !AnyOccurs(text, Rules[j].keywords)
    ensures AnyOccurs(text, Rules[4].keywords)
  {
    forall j | 0 <= j < 3
      ensures !AnyOccurs(text, Rules[j].keywords)
    {
      SoilTypeMissesGroup(text, j);
    }
    SoilTypeMissesProblemGroup(text);
    assert OccursAt(text, Rules[4].keywords[0], 0);
  }

  /** The two-word keyword 'soil type' matches as one substring. */
  lemma SoilTypeIsSoilAnalysis(query: string)
    requires Lower(query) == "soil type"
    ensures ClassifyQueryType(query) == "soil_analysis"
  {
    SoilTypeMatchesAnalysisGroupFirst(Lower(query));
    ClassifyPicksFirstMatchingGroup(query, 4);
  }
}
