/**
 * POST /create-content: a post from a prompt compiled from the route's own
 * Handlebars template, and hashtags for that post.
 */
module CreateContent {
  import opened Common
  import opened Json
  import opened Http
  import opened Content

  const FailedToContact := "Failed to contact OpenAI"

  /** The Handlebars template compiled at start-up, applied to prompt, persona, sentiment. */
  type Compiled = (string, string, string) -> string

  /**
   * The handler. Defaults first; then a missing prompt is a 400 echoing the body;
   * then a missing key is a 500; no call happens before both checks pass. Either
   * model call that throws gives 500 "Failed to contact OpenAI" with its message.
   */
  function Handle(req: ContentRequest, env: Env, compiled: Compiled, chat: ChatOracle, parse: Parser): (h: Handled)
    ensures !Truthy(req.prompt) ==> h == Handled(MissingPromptResponse(req), [])
    ensures Truthy(req.prompt) && !EnvSet(env, OpenAiKey) ==> h == Handled(Response(500, Error(MissingOpenAiKey)), [])
    ensures Truthy(req.prompt) && EnvSet(env, OpenAiKey) ==>
      var d := DraftWithHashtags(ContentModel(env), compiled(req.prompt.value, ContentPersona(req, env), ContentSentiment(req, env)), chat, parse);
      h.effects == d.effects
      && (d.result.Threw? ==> h.response == Response(500, ErrorDetails(FailedToContact, d.result.message)))
      && (d.result.Returned? ==> h.response == Response(200, Content(d.result.value.0, d.result.value.1)))
    ensures h.effects != [] <==> Truthy(req.prompt) && EnvSet(env, OpenAiKey)
    ensures h.response.status in {200, 400, 500}
  {
    var persona := ContentPersona(req, env);
    var sentiment := ContentSentiment(req, env);
    if !Truthy(req.prompt) then Handled(MissingPromptResponse(req), [])
    else
      var prompt := compiled(req.prompt.value, persona, sentiment);
      if !EnvSet(env, OpenAiKey) then Handled(Response(500, Error(MissingOpenAiKey)), [])
      else
        var d := DraftWithHashtags(ContentModel(env), prompt, chat, parse);
        match d.result
        case Threw(m) => Handled(Response(500, ErrorDetails(FailedToContact, m)), d.effects)
        case Returned((message, hashtags)) => Handled(Response(200, Content(message, hashtags)), d.effects)
  }

  /**
   * A successful reply sends the first reply's text as `message`, and the hashtag
   * request was made with exactly that text.
   */
  lemma MessageFlowsToHashtags(req: ContentRequest, env: Env, compiled: Compiled, chat: ChatOracle, parse: Parser)
    requires Handle(req, env, compiled, chat, parse).response.status == 200
    ensures var h := Handle(req, env, compiled, chat, parse);
      h.response.body.Content? && |h.effects| == 2
      && h.effects[1] == Chat(ContentModel(env), HashtagPrompt(h.response.body.message))
      && h.response.body.message == MessageText(chat(0, h.effects[0].prompt).value)
  {
  }
}
