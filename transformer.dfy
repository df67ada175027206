/** The decision logic of `StoryTransformer.analyze_story` and
    `generate_enhanced`. The generative model is an oracle: a function from
    the prompt sent to the outcome of the call, so a branch that sends no
    prompt is a branch whose result does not depend on the oracle. The JSON
    decoding of the analysis reply is a second oracle. */
module Transformer {
  import opened Text
  import opened Relevance
  import opened Quality

  /** The four prompt templates, keyed by style. */
  datatype Template = InspirationalPrompt | EmotionalPrompt | CommunityPrompt | ResiliencePrompt

  function StyleKey(t: Template): string {
    match t
    case InspirationalPrompt => "inspirational"
    case EmotionalPrompt => "emotional"
    case CommunityPrompt => "community"
    case ResiliencePrompt => "resilience"
  }

  const StyleKeys: set<string> := {"inspirational", "emotional", "community", "resilience"}

  /** `self.prompts.get(style, self.prompts['inspirational'])`: the template
      stored under the key, the inspirational one for any other key. */
  function TemplateFor(style: string): (t: Template)
    ensures style in StyleKeys ==> StyleKey(t) == style
    ensures style !in StyleKeys ==> t == InspirationalPrompt
  {
    if style == "emotional" then EmotionalPrompt
    else if style == "community" then CommunityPrompt
    else if style == "resilience" then ResiliencePrompt
    else InspirationalPrompt
  }

  /** Every template is found under its own key. */
  lemma TemplateForKey(t: Template)
    ensures TemplateFor(StyleKey(t)) == t
  {
  }

  /** What is sent to the model; the prompt wording itself is not modelled. */
  datatype Prompt =
    | AnalysisPrompt(excerpt: string)
    | TransformPrompt(template: Template, text: string)

  datatype CallOutcome = CallFailed | Returned(text: string)

  /** The analysis record. `suggestedStyle` is None when a decoded reply
      lacks the `suggested_style` key. */
  datatype Analysis = Analysis(
    emotionalTone: string,
    mainThemes: seq<string>,
    suggestedStyle: Option<string>,
    confidence: real,
    isRelevant: bool)

  /** Decoding of the analysis reply: a JSON object, or anything else. */
  datatype ParseOutcome = ParseOk(record: Analysis) | ParseFailed

  const IrrelevantAnalysis := Analysis("irrelevant", ["irrelevant"], Some("inspirational"), 0.1, false)
  const UnparsedAnalysis := Analysis("hopeful", ["struggle", "hope"], Some("inspirational"), 0.8, true)
  const FailedAnalysis := Analysis("neutral", ["struggle"], Some("inspirational"), 0.5, true)

  /** `text[:200]`, the part of the story quoted in the analysis prompt. */
  function Excerpt(text: string): (e: string)
    ensures |e| == if |text| <= 200 then |text| else 200
    ensures IsPrefix(e, text)
  {
    if |text| <= 200 then text else text[..200]
  }

  /** `analyze_story`. Irrelevant text gets the fixed irrelevant record;
      otherwise the excerpt is sent, and the decoded reply (with the
      relevance flag forced on), the parse-failure default (hopeful, 0.8)
      or the call-failure default (neutral, 0.5) is returned. */
  function AnalyzeStory(text: string, model: Prompt -> CallOutcome, parse: string -> ParseOutcome): (a: Analysis)
    ensures a.isRelevant <==> IsRelevantContent(text)
    ensures !IsRelevantContent(text) ==> a == IrrelevantAnalysis
    ensures IsRelevantContent(text) ==>
      match model(AnalysisPrompt(Excerpt(text)))
      case CallFailed => a == FailedAnalysis
      case Returned(reply) =>
        match parse(reply)
        case ParseFailed => a == UnparsedAnalysis
        case ParseOk(record) => a == record.(isRelevant := true)
  {
    if !IsRelevantContent(text) then IrrelevantAnalysis
    else
      match model(AnalysisPrompt(Excerpt(text)))
      case CallFailed => FailedAnalysis
      case Returned(reply) =>
        match parse(reply)
        case ParseFailed => UnparsedAnalysis
        case ParseOk(record) => record.(isRelevant := true)
  }

  /** Irrelevant text is answered without consulting the model at all. */
  lemma IrrelevantAnalysisMakesNoCall(text: string,
                                      m1: Prompt -> CallOutcome, p1: string -> ParseOutcome,
                                      m2: Prompt -> CallOutcome, p2: string -> ParseOutcome)
    requires !IsRelevantContent(text)
    ensures AnalyzeStory(text, m1, p1) == AnalyzeStory(text, m2, p2)
    ensures AnalyzeStory(text, m1, p1).confidence == 0.1
    ensures AnalyzeStory(text, m1, p1).suggestedStyle == Some("inspirational")
  {
  }

  /** Only a decoded reply can lack a suggested style; every default record
      suggests "inspirational". */
  lemma MissingStyleOnlyFromDecodedReply(text: string, model: Prompt -> CallOutcome, parse: string -> ParseOutcome)
    requires AnalyzeStory(text, model, parse).suggestedStyle.None?
    ensures IsRelevantContent(text)
    ensures model(AnalysisPrompt(Excerpt(text))).Returned?
    ensures parse(model(AnalysisPrompt(Excerpt(text))).text).ParseOk?
  {
  }

  /** Why a generation is reported as failed. */
  datatype ErrorKind = IrrelevantContent | AiRejected | TransformationFailed

  /** The dictionary `generate_enhanced` returns. */
  datatype Enhanced = Enhanced(
    transformedText: string,
    styleUsed: string,
    qualityScore: real,
    analysis: Analysis,
    success: bool,
    error: Option<ErrorKind>)

  /** `generate_enhanced` either returns, or raises a KeyError when neither
      the caller nor the decoded analysis names a style. */
  datatype Generation = Generated(result: Enhanced) | StyleKeyMissing

  const RefusalPhrase: string := "δεν είναι κατάλληλο"
  const IrrelevantMessage: string := "❌ Το κείμενο δεν είναι κατάλληλο για μετασχηματισμό. Παρακαλώ εισάγετε μια προσωπική ιστορία σχετική με την Πολλαπλή Σκλήρυνση ή θέματα υγείας."
  const FailureMessage: string := "⚠️ Σφάλμα μετασχηματισμού. Παρακαλώ δοκιμάστε ξανά."

  /** Python's `not style` for an optional string. */
  predicate Falsy(style: Option<string>) {
    style.None? || style.value == ""
  }

  /** The caller's style when it is non-empty, the analysis's otherwise. */
  function ChooseStyle(style: Option<string>, a: Analysis): (s: Option<string>)
    ensures !Falsy(style) ==> s == style
    ensures Falsy(style) ==> s == a.suggestedStyle
  {
    if !Falsy(style) then style else a.suggestedStyle
  }

  /** The model declined: its reply mentions that the text is not suitable. */
  predicate Refused(reply: string) {
    Contains(Lower(reply), RefusalPhrase)
  }

  /** The call the transformation makes, once a style has been chosen. */
  function TransformCall(text: string, style: string, model: Prompt -> CallOutcome): CallOutcome {
    model(TransformPrompt(TemplateFor(style), text))
  }

  /** `generate_enhanced`. Success exactly when the text is relevant, a style
      was found, the model answered, and the stripped answer is no refusal;
      every failure scores 0.0 and names its cause. */
  function GenerateEnhanced(text: string, style: Option<string>,
                            model: Prompt -> CallOutcome, parse: string -> ParseOutcome): (g: Generation)
    ensures var a := AnalyzeStory(text, model, parse);
      g.StyleKeyMissing? <==> IsRelevantContent(text) && ChooseStyle(style, a).None?
    ensures g.Generated? ==> g.result.analysis == AnalyzeStory(text, model, parse)
    ensures g.Generated? ==>
      var a := AnalyzeStory(text, model, parse);
      (g.result.success <==>
        IsRelevantContent(text)
        && TransformCall(text, ChooseStyle(style, a).value, model).Returned?
        && !Refused(Strip(TransformCall(text, ChooseStyle(style, a).value, model).text)))
    ensures g.Generated? && !g.result.success ==> g.result.qualityScore == 0.0 && g.result.error.Some?
    ensures g.Generated? && g.result.success ==>
      var r := g.result;
      && r.error.None?
      && r.styleUsed == ChooseStyle(style, r.analysis).value
      && r.transformedText == Strip(TransformCall(text, r.styleUsed, model).text)
      && !Contains(Lower(r.transformedText), RefusalPhrase)
      && r.qualityScore == AssessQuality(text, r.transformedText)
      && 0.0 <= r.qualityScore <= 1.0
    ensures !IsRelevantContent(text) ==>
      g == Generated(Enhanced(IrrelevantMessage, "none", 0.0, IrrelevantAnalysis, false, Some(IrrelevantContent)))
    ensures g.Generated? && g.result.error == Some(TransformationFailed) ==>
      g.result.styleUsed == "fallback" && g.result.transformedText == FailureMessage
    ensures g.Generated? && g.result.error == Some(AiRejected) ==>
      g.result.styleUsed == ChooseStyle(style, g.result.analysis).value
  {
    var a := AnalyzeStory(text, model, parse);
    if !a.isRelevant then
      Generated(Enhanced(IrrelevantMessage, "none", 0.0, a, false, Some(IrrelevantContent)))
    else
      match ChooseStyle(style, a)
      case None => StyleKeyMissing
      case Some(s) =>
        match TransformCall(text, s, model)
        case CallFailed =>
          Generated(Enhanced(FailureMessage, "fallback", 0.0, a, false, Some(TransformationFailed)))
        case Returned(reply) =>
          var transformed := Strip(reply);
          if Refused(transformed) then
            Generated(Enhanced(transformed, s, 0.0, a, false, Some(AiRejected)))
          else
            Generated(Enhanced(transformed, s, AssessQuality(text, transformed), a, true, None))
  }

  /** Irrelevant text is turned away without any call to the model. */
  lemma IrrelevantGenerationMakesNoCall(text: string, style: Option<string>,
                                        m1: Prompt -> CallOutcome, p1: string -> ParseOutcome,
                                        m2: Prompt -> CallOutcome, p2: string -> ParseOutcome)
    requires !IsRelevantContent(text)
    ensures GenerateEnhanced(text, style, m1, p1) == GenerateEnhanced(text, style, m2, p2)
    ensures !GenerateEnhanced(text, style, m1, p1).result.success
  {
  }

  /** A caller's non-empty style never raises and is the style reported,
      whatever the analysis suggested. */
  lemma CallerStyleWins(text: string, style: string,
                        model: Prompt -> CallOutcome, parse: string -> ParseOutcome)
    requires style != "" && IsRelevantContent(text)
    ensures GenerateEnhanced(text, Some(style), model, parse).Generated?
    ensures GenerateEnhanced(text, Some(style), model, parse).result.error != Some(TransformationFailed) ==>
      GenerateEnhanced(text, Some(style), model, parse).result.styleUsed == style
  {
  }

  /** A failed transformation call, once a style is chosen for relevant
      text, gives the fixed failure message under style "fallback". */
  lemma FailedCallFallsBack(text: string, style: Option<string>, s: string,
                            model: Prompt -> CallOutcome, parse: string -> ParseOutcome)
    requires IsRelevantContent(text)
    requires ChooseStyle(style, AnalyzeStory(text, model, parse)) == Some(s)
    requires TransformCall(text, s, model) == CallFailed
    ensures GenerateEnhanced(text, style, model, parse)
         == Generated(Enhanced(FailureMessage, "fallback", 0.0, AnalyzeStory(text, model, parse),
                               false, Some(TransformationFailed)))
  {
  }

  /** A refusal is reported as such: the stripped reply itself is returned,
      under the chosen style, scored 0.0 and not saved. */
  lemma RefusalReported(text: string, style: Option<string>, s: string, reply: string,
                        model: Prompt -> CallOutcome, parse: string -> ParseOutcome)
    requires IsRelevantContent(text)
    requires ChooseStyle(style, AnalyzeStory(text, model, parse)) == Some(s)
    requires TransformCall(text, s, model) == Returned(reply)
    requires Refused(Strip(reply))
    ensures GenerateEnhanced(text, style, model, parse)
         == Generated(Enhanced(Strip(reply), s, 0.0, AnalyzeStory(text, model, parse),
                               false, Some(AiRejected)))
  {
  }

  /** Without a caller style, the analysis's suggestion is the style used
      whenever the transformation call returns. */
  lemma AnalysisStyleUsed(text: string, style: Option<string>, s: string,
                          model: Prompt -> CallOutcome, parse: string -> ParseOutcome)
    requires IsRelevantContent(text) && Falsy(style)
    requires AnalyzeStory(text, model, parse).suggestedStyle == Some(s)
    requires TransformCall(text, s, model).Returned?
    ensures GenerateEnhanced(text, style, model, parse).Generated?
    ensures GenerateEnhanced(text, style, model, parse).result.styleUsed == s
  {
  }

  /** The success path in full: with a non-empty caller style, relevant
      text and an answer that is no refusal, the stripped answer is
      returned under the caller's style with its quality score. */
  lemma SuccessPath(text: string, style: string, reply: string,
                    model: Prompt -> CallOutcome, parse: string -> ParseOutcome)
    requires style != "" && IsRelevantContent(text)
    requires model(TransformPrompt(TemplateFor(style), text)) == Returned(reply)
    requires !Refused(Strip(reply))
    ensures GenerateEnhanced(text, Some(style), model, parse)
         == Generated(Enhanced(Strip(reply), style, AssessQuality(text, Strip(reply)),
                               AnalyzeStory(text, model, parse), true, None))
  {
  }
}
