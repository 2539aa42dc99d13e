/** Intent classification of chat messages (`_detect_action_type`) and the
    report-request flag of a chat reply. */
module Intent {

  import opened Strings

  /** The eight action categories a message can be classified into. */
  datatype ActionType =
    | GenerateImage
    | GenerateReport
    | GenerateContent
    | CompetitorAnalysis
    | PredictiveAnalysis
    | AudienceInsights
    | CampaignCreation
    | GeneralChat

  /** The label string returned for each category. */
  function Label(a: ActionType): string {
    match a
    case GenerateImage => "generate_image"
    case GenerateReport => "generate_report"
    case GenerateContent => "generate_content"
    case CompetitorAnalysis => "competitor_analysis"
    case PredictiveAnalysis => "predictive_analysis"
    case AudienceInsights => "audience_insights"
    case CampaignCreation => "campaign_creation"
    case GeneralChat => "general_chat"
  }

  const Labels: set<string> := {
    "generate_image", "generate_report", "generate_content", "competitor_analysis",
    "predictive_analysis", "audience_insights", "campaign_creation", "general_chat"
  }

  const ImagePhrases: seq<string> := [
    "create a image", "create an image", "generate a image", "generate an image",
    "generate image", "make image", "make a image", "make an image",
    "create a photo", "create photo", "generate a photo", "generate photo", "make photo",
    "design a post", "design post", "create visual", "generate visual",
    "make a post photo", "create post image", "image of", "photo of",
    "image about", "photo about", "picture of", "picture about",
    "graphic about", "graphic of", "design about"
  ]
  const ReportPhrases: seq<string> := ["generate report", "send report", "create report", "email report"]
  const ContentPhrases: seq<string> := ["generate post", "create caption", "write post", "generate content"]
  const CompetitorPhrases: seq<string> := ["competitor", "competition", "rival"]
  const PredictivePhrases: seq<string> := ["predict", "forecast", "what if", "scenario"]
  const AudiencePhrases: seq<string> := ["persona", "audience segment", "who is"]
  const CampaignPhrases: seq<string> := ["campaign", "strategy", "plan"]

  /** The classifier: an ordered cascade of substring tests on the lower-cased
      message, image phrases first, falling back to general chat. */
  function DetectActionType(message: string): (a: ActionType)
    ensures a == GenerateImage <==> ContainsAny(Lower(message), ImagePhrases)
    ensures a != GeneralChat ==> ContainsAny(Lower(message), PhrasesOf(a))
  {
    var m := Lower(message);
    if ContainsAny(m, ImagePhrases) then GenerateImage
    else if ContainsAny(m, ReportPhrases) then GenerateReport
    else if ContainsAny(m, ContentPhrases) then GenerateContent
    else if ContainsAny(m, CompetitorPhrases) then CompetitorAnalysis
    else if ContainsAny(m, PredictivePhrases) then PredictiveAnalysis
    else if ContainsAny(m, AudiencePhrases) then AudienceInsights
    else if ContainsAny(m, CampaignPhrases) then CampaignCreation
    else GeneralChat
  }

  /** The keywords that select each category; general chat has none. */
  function PhrasesOf(a: ActionType): seq<string> {
    match a
    case GenerateImage => ImagePhrases
    case GenerateReport => ReportPhrases
    case GenerateContent => ContentPhrases
    case CompetitorAnalysis => CompetitorPhrases
    case PredictiveAnalysis => PredictivePhrases
    case AudienceInsights => AudiencePhrases
    case CampaignCreation => CampaignPhrases
    case GeneralChat => []
  }

  /** A category's precedence: lower ranks are checked first. */
  function Rank(a: ActionType): nat {
    match a
    case GenerateImage => 0
    case GenerateReport => 1
    case GenerateContent => 2
    case CompetitorAnalysis => 3
    case PredictiveAnalysis => 4
    case AudienceInsights => 5
    case CampaignCreation => 6
    case GeneralChat => 7
  }

  /** A row of the classification table: a category and its keywords. */
  datatype Rule = Rule(action: ActionType, phrases: seq<string>)

  /** The classification rules as an ordered table. */
  const Rules: seq<Rule> := [
    Rule(GenerateImage, ImagePhrases),
    Rule(GenerateReport, ReportPhrases),
    Rule(GenerateContent, ContentPhrases),
    Rule(CompetitorAnalysis, CompetitorPhrases),
    Rule(PredictiveAnalysis, PredictivePhrases),
    Rule(AudienceInsights, AudiencePhrases),
    Rule(CampaignCreation, CampaignPhrases)
  ]

  /** Table-driven classification: the category of the first row, from row
      `k` on, with a keyword in `text`; general chat when no row matches. */
  function FirstMatch(rules: seq<Rule>, k: nat, text: string): ActionType
    decreases |rules| - k
  {
    if k >= |rules| then GeneralChat
    else if ContainsAny(text, rules[k].phrases) then rules[k].action
    else FirstMatch(rules, k + 1, text)
  }

  /** The cascade agrees with the rule table read top to bottom. */
  lemma DetectionFollowsRuleTable(message: string)
    ensures DetectActionType(message) == FirstMatch(Rules, 0, Lower(message))
  {
    var m := Lower(message);
    assert FirstMatch(Rules, 7, m) == GeneralChat;
    assert FirstMatch(Rules, 6, m) == if ContainsAny(m, CampaignPhrases) then CampaignCreation else GeneralChat;
    assert FirstMatch(Rules, 5, m) == if ContainsAny(m, AudiencePhrases) then AudienceInsights else FirstMatch(Rules, 6, m);
    assert FirstMatch(Rules, 4, m) == if ContainsAny(m, PredictivePhrases) then PredictiveAnalysis else FirstMatch(Rules, 5, m);
    assert FirstMatch(Rules, 3, m) == if ContainsAny(m, CompetitorPhrases) then CompetitorAnalysis else FirstMatch(Rules, 4, m);
    assert FirstMatch(Rules, 2, m) == if ContainsAny(m, ContentPhrases) then GenerateContent else FirstMatch(Rules, 3, m);
    assert FirstMatch(Rules, 1, m) == if ContainsAny(m, ReportPhrases) then GenerateReport else FirstMatch(Rules, 2, m);
  }

  /** Precedence, both directions: a message is classified `a` exactly when
      `a` has a keyword in it (or `a` is the default) and no category of
      higher precedence has one. So an image phrase wins over every other
      keyword present, and general chat means no keyword matched at all. */
  lemma DetectionPrecedence(message: string, a: ActionType)
    ensures DetectActionType(message) == a <==>
      && (a == GeneralChat || ContainsAny(Lower(message), PhrasesOf(a)))
      && (forall b :: Rank(b) < Rank(a) ==> !ContainsAny(Lower(message), PhrasesOf(b)))
  {
    var m := Lower(message);
    var d := DetectActionType(message);
    if d == a {
      forall b | Rank(b) < Rank(a) ensures !ContainsAny(m, PhrasesOf(b)) {
        match b
        case GenerateImage =>
        case GenerateReport =>
        case GenerateContent =>
        case CompetitorAnalysis =>
        case PredictiveAnalysis =>
        case AudienceInsights =>
        case CampaignCreation =>
        case GeneralChat =>
      }
    } else if a == GeneralChat || ContainsAny(m, PhrasesOf(a)) {
      // `d` was chosen by a keyword of a category ranked before `a`.
      assert Rank(d) < Rank(a);
      assert ContainsAny(m, PhrasesOf(d));
    }
  }

  /** The classification depends on the message only through its lower-cased
      form. */
  lemma DetectionIgnoresCase(message: string)
    ensures DetectActionType(Lower(message)) == DetectActionType(message)
  {
    LowerIdempotent(message);
  }

  /** Every result is one of the eight labels, and distinct categories have
      distinct labels. */
  lemma LabelsAreDistinct(a: ActionType, b: ActionType)
    ensures Label(a) in Labels
    ensures |Labels| == 8
    ensures Label(a) == Label(b) ==> a == b
  {
  }

  /** `needs_report` on the normal reply path: the message mentions "report"
      together with "generate" or "send", ignoring case. */
  predicate NeedsReport(message: string) {
    var m := Lower(message);
    Contains(m, "report") && (Contains(m, "generate") || Contains(m, "send"))
  }

  /** A message using the phrases "generate report" or "send report" always
      asks for a report. ("email report" and "create report" select the report
      category but need not set the flag.) */
  lemma ReportPhraseNeedsReport(message: string)
    requires Contains(Lower(message), "generate report") || Contains(Lower(message), "send report")
    ensures NeedsReport(message)
    ensures DetectActionType(message) == GenerateReport || DetectActionType(message) == GenerateImage
  {
    var m := Lower(message);
    if Contains(m, "generate report") {
      ContainsAt("generate report", "report", 9);
      ContainsAt("generate report", "generate", 0);
      ContainsTransitive(m, "generate report", "report");
      ContainsTransitive(m, "generate report", "generate");
      assert ReportPhrases[0] == "generate report";
    } else {
      ContainsAt("send report", "report", 5);
      ContainsAt("send report", "send", 0);
      ContainsTransitive(m, "send report", "report");
      ContainsTransitive(m, "send report", "send");
      assert ReportPhrases[1] == "send report";
    }
  }
}
