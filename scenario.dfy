/** The end-to-end path through the server: a story submitted with one display
    and one moderator console connected. */
module Scenario {
  import opened Text
  import Themes
  import opened Transformer
  import opened Connections
  import opened Stories

  /** Too short a text is refused, saves nothing and notifies nobody. */
  method SubmitTooShort(text: string, model: Prompt -> CallOutcome, parse: string -> ParseOutcome)
    returns (reply: SubmitReply, stats: Stats, sent: seq<Delivery<Message>>)
    requires |Strip(text)| < MinLength
    ensures reply == TooShort && stats == Stats(0, 0, 0, 0) && sent == []
  {
    var manager := new ConnectionManager<Message>();
    manager.Connect(1, true);
    var service := new StoryService(manager);
    reply := service.SubmitStory(text, None, None, model, parse, 0, {});
    stats := service.GetStats();
    sent := manager.deliveries;
  }

  /** A relevant story that the model transforms is saved as the first,
      pending row, themed from the original text, and announced to the
      moderator console but not to the display. */
  method SubmitAnnounces(text: string, style: string, reply: string,
                         model: Prompt -> CallOutcome, parse: string -> ParseOutcome)
    returns (submitted: SubmitReply, sent: seq<Delivery<Message>>)
    requires |Strip(text)| >= MinLength && Relevance.IsRelevantContent(text) && style != ""
    requires model(TransformPrompt(TemplateFor(style), text)) == Returned(reply)
    requires !Refused(Strip(reply))
    ensures submitted == Saved(1, Strip(reply), Themes.GetEmojiTheme(text))
    ensures sent == [Delivery(2, NewSubmission(1, text, Strip(reply), Some("author"), 10), true)]
  {
    var manager := new ConnectionManager<Message>();
    manager.Connect(1, false);
    manager.Connect(2, true);
    var service := new StoryService(manager);
    SuccessfulRewrite(text, style, reply, model, parse);
    submitted := service.SubmitStory(text, Some("author"), Some(style), model, parse, 10, {});
    sent := manager.deliveries;
  }

  /** The part of the success path the scenario relies on: the stripped
      reply is returned as a success. */
  lemma SuccessfulRewrite(text: string, style: string, reply: string,
                          model: Prompt -> CallOutcome, parse: string -> ParseOutcome)
    requires style != "" && Relevance.IsRelevantContent(text)
    requires model(TransformPrompt(TemplateFor(style), text)) == Returned(reply)
    requires !Refused(Strip(reply))
    ensures GenerateEnhanced(text, Some(style), model, parse).Generated?
    ensures GenerateEnhanced(text, Some(style), model, parse).result.success
    ensures GenerateEnhanced(text, Some(style), model, parse).result.transformedText == Strip(reply)
  {
    SuccessPath(text, style, reply, model, parse);
  }
}
